/**
 The register of external credits and reversals by period. A period runs from the local midnight
 that starts its first date to the one that ends its last, as instants in UTC.
 */
module PaymentRegister {
  import opened Common
  import opened Filings
  import opened FeeGuarantees
  import CourtCalendars
  import FilingRuns

  // ---------------------------------------------------------------- totals of one period

  predicate Within(a: Time, b: Time, t: Time) {
    a <= t < b
  }

  /** An event's signed amount, if it falls in the period. */
  function SignedIn(envelopes: seq<Envelope>, tx: Tx, court: nat, simulated: bool, a: Time, b: Time): int {
    if Within(a, b, tx.at) then Signed(envelopes, tx, court, simulated) else 0
  }

  /** Credits less reversals in a period. */
  function PeriodNet(envelopes: seq<Envelope>, txs: seq<Tx>, court: nat, simulated: bool, a: Time, b: Time): int {
    if txs == [] then 0
    else PeriodNet(envelopes, txs[..|txs| - 1], court, simulated, a, b) + SignedIn(envelopes, txs[|txs| - 1], court, simulated, a, b)
  }

  datatype Totals = Totals(credits: nat, reversals: nat)
  datatype Report = Report(entries: nat, real_: Totals, simulated: Totals)

  predicate InRegister(s: State, tx: Tx, court: nat, includeSimulated: bool, a: Time, b: Time) {
    && IsCredit(tx.event) && CourtOf(s.envelopes, tx.filing) == Some(court) && Within(a, b, tx.at)
    && (includeSimulated || !tx.event.simulated)
  }

  function Add(t: Totals, e: Event): Totals
    requires IsCredit(e)
  {
    if e.CreditReversed? then t.(reversals := t.reversals + e.amount) else t.(credits := t.credits + e.amount)
  }

  function Net(t: Totals): int {
    t.credits - t.reversals
  }

  function PeriodTotals(s: State, txs: seq<Tx>, court: nat, simulated: bool, a: Time, b: Time): Totals {
    if txs == [] then Totals(0, 0)
    else
      var before, last := PeriodTotals(s, txs[..|txs| - 1], court, simulated, a, b), txs[|txs| - 1];
      if InRegister(s, last, court, true, a, b) && last.event.simulated == simulated then Add(before, last.event) else before
  }

  function Entries(s: State, txs: seq<Tx>, court: nat, includeSimulated: bool, a: Time, b: Time): nat {
    if txs == [] then 0
    else
      Entries(s, txs[..|txs| - 1], court, includeSimulated, a, b)
      + if InRegister(s, txs[|txs| - 1], court, includeSimulated, a, b) then 1 else 0
  }

  lemma {:induction false} TotalsNet(s: State, txs: seq<Tx>, court: nat, simulated: bool, a: Time, b: Time)
    ensures Net(PeriodTotals(s, txs, court, simulated, a, b)) == PeriodNet(s.envelopes, txs, court, simulated, a, b)
  {
    if txs != [] { TotalsNet(s, txs[..|txs| - 1], court, simulated, a, b); }
  }

  const LONGEST: nat := 31
  const DAY: int := CourtCalendars.SECONDS_PER_DAY

  /** The last date the calendar can hold, 31 December 9999. */
  const LAST_DATE: int := 3652059

  /** The instant a date starts in a zone, given the zone's offset from UTC at that midnight. */
  function Midnight(offset: int -> int, date: int): Time {
    DAY * date - offset(date)
  }

  predicate Allowed(from: int, to: int) {
    0 <= to - from < LONGEST && to != LAST_DATE
  }

  /** What the register reports of an inclusive range of dates. */
  function ReportOf(s: State, court: nat, from: int, to: int, offset: int -> int, includeSimulated: bool): Report {
    var a, b := Midnight(offset, from), Midnight(offset, to + 1);
    Report(Entries(s, s.txs, court, includeSimulated, a, b), PeriodTotals(s, s.txs, court, false, a, b),
           if includeSimulated then PeriodTotals(s, s.txs, court, true, a, b) else Totals(0, 0))
  }

  datatype Answer = Declined(status: nat) | Given(report: Report)

  method PeriodRegister(s: State, administrator: bool, court: nat, from: int, to: int, offset: int -> int, includeSimulated: bool)
    returns (answer: Answer)
    ensures answer == if !administrator then Declined(403) else if !Allowed(from, to) then Declined(422)
                      else Given(ReportOf(s, court, from, to, offset, includeSimulated))
  {
    if !administrator {
      return Declined(403);
    }
    if !(0 <= to - from < LONGEST) || to == LAST_DATE {
      return Declined(422);
    }
    var start, end := Midnight(offset, from), Midnight(offset, to + 1);
    var entries, real_, simulated := 0, Totals(0, 0), Totals(0, 0);
    var i := 0;
    assert s.txs[..0] == [];
    while i < |s.txs|
      invariant i <= |s.txs| && entries == Entries(s, s.txs[..i], court, includeSimulated, start, end)
      invariant real_ == PeriodTotals(s, s.txs[..i], court, false, start, end)
      invariant simulated == if includeSimulated then PeriodTotals(s, s.txs[..i], court, true, start, end) else Totals(0, 0)
    {
      var tx := s.txs[i];
      assert s.txs[..i + 1][..i] == s.txs[..i];
      if InRegister(s, tx, court, includeSimulated, start, end) {
        entries := entries + 1;
        if tx.event.simulated {
          simulated := Add(simulated, tx.event);
        } else {
          real_ := Add(real_, tx.event);
        }
      }
      i := i + 1;
    }
    assert s.txs[..i] == s.txs;
    return Given(Report(entries, real_, simulated));
  }

  // ---------------------------------------------------------------- consecutive periods

  /** In how many of the periods between consecutive bounds does the instant fall? */
  function Counted(bounds: seq<Time>, t: Time): nat {
    if |bounds| < 2 then 0
    else Counted(bounds[..|bounds| - 1], t) + if Within(bounds[|bounds| - 2], bounds[|bounds| - 1], t) then 1 else 0
  }

  /** Over how many of them does it lie where the end comes before the start? */
  function Inverted(bounds: seq<Time>, t: Time): nat {
    if |bounds| < 2 then 0
    else Inverted(bounds[..|bounds| - 1], t) + if Within(bounds[|bounds| - 1], bounds[|bounds| - 2], t) then 1 else 0
  }

  predicate Nondecreasing(bounds: seq<Time>) {
    forall i | 0 <= i < |bounds| - 1 :: bounds[i] <= bounds[i + 1]
  }

  function Indicator(a: Time, b: Time, t: Time): int {
    if Within(a, b, t) then 1 else 0
  }

  /** Every period an instant falls in, less every inverted one, is one crossing of the whole range. */
  lemma {:induction false} Crossings(bounds: seq<Time>, t: Time)
    requires bounds != []
    ensures var a, b := bounds[0], bounds[|bounds| - 1];
            Counted(bounds, t) - Inverted(bounds, t) == Indicator(a, b, t) - Indicator(b, a, t)
  {
    if |bounds| >= 2 {
      Crossings(bounds[..|bounds| - 1], t);
    }
  }

  lemma {:induction false} InvertedSomewhere(bounds: seq<Time>, i: nat)
    requires i + 1 < |bounds| && bounds[i + 1] < bounds[i]
    ensures Inverted(bounds, bounds[i + 1]) >= 1
  {
    var n := |bounds| - 1;
    if i + 1 < n {
      InvertedSomewhere(bounds[..n], i);
    }
  }

  lemma {:induction false} NeverInverted(bounds: seq<Time>, t: Time)
    requires Nondecreasing(bounds)
    ensures Inverted(bounds, t) == 0
  {
    if |bounds| >= 2 { NeverInverted(bounds[..|bounds| - 1], t); }
  }

  lemma {:induction false} FirstIsLeast(bounds: seq<Time>, k: nat)
    requires Nondecreasing(bounds) && k < |bounds|
    ensures bounds[0] <= bounds[k]
  {
    if k > 0 { FirstIsLeast(bounds, k - 1); }
  }

  /** Every instant of the whole range falls in exactly one period, and no other in any. */
  ghost predicate Tiles(bounds: seq<Time>)
    requires bounds != []
  {
    forall t :: Counted(bounds, t) == Indicator(bounds[0], bounds[|bounds| - 1], t)
  }

  /** Consecutive periods tile their range exactly when no local midnight comes before an earlier date's. */
  lemma TilesIffMidnightsAscend(bounds: seq<Time>)
    requires bounds != [] && bounds[0] <= bounds[|bounds| - 1]
    ensures Tiles(bounds) <==> Nondecreasing(bounds)
  {
    if Nondecreasing(bounds) {
      forall t ensures Counted(bounds, t) == Indicator(bounds[0], bounds[|bounds| - 1], t) {
        Crossings(bounds, t);
        NeverInverted(bounds, t);
      }
    } else {
      var i :| 0 <= i < |bounds| - 1 && bounds[i + 1] < bounds[i];
      InvertedSomewhere(bounds, i);
      Crossings(bounds, bounds[i + 1]);
      assert Counted(bounds, bounds[i + 1]) != Indicator(bounds[0], bounds[|bounds| - 1], bounds[i + 1]);
    }
  }

  // ---------------------------------------------------------------- zones

  /** From one date to the next the zone's offset rises by at most a day. */
  ghost predicate Steady(offset: int -> int, lo: int, hi: int) {
    forall d | lo <= d < hi :: offset(d + 1) - offset(d) <= DAY
  }

  lemma NextMidnight(offset: int -> int, d: int)
    ensures Midnight(offset, d) <= Midnight(offset, d + 1) <==> offset(d + 1) - offset(d) <= DAY
  {
  }

  lemma {:induction false} MidnightOrder(offset: int -> int, lo: int, hi: int)
    requires lo <= hi && Steady(offset, lo, hi)
    ensures Midnight(offset, lo) <= Midnight(offset, hi)
    decreases hi - lo
  {
    if lo < hi {
      MidnightOrder(offset, lo, hi - 1);
      NextMidnight(offset, hi - 1);
    }
  }

  /** The midnights that bound the days from one date to another. */
  function DailyBounds(offset: int -> int, lo: int, hi: int): seq<Time>
    requires lo <= hi
  {
    seq(hi - lo + 1, k => Midnight(offset, lo + k))
  }

  /** Daily registers count every instant exactly once if and only if the zone is steady. */
  lemma DaysTileIffSteady(offset: int -> int, lo: int, hi: int)
    requires lo <= hi && Midnight(offset, lo) <= Midnight(offset, hi)
    ensures Tiles(DailyBounds(offset, lo, hi)) <==> Steady(offset, lo, hi)
  {
    hide Tiles, Midnight;
    var bounds := DailyBounds(offset, lo, hi);
    TilesIffMidnightsAscend(bounds);
    if Steady(offset, lo, hi) {
      forall i | 0 <= i < |bounds| - 1 ensures bounds[i] <= bounds[i + 1] { NextMidnight(offset, lo + i); }
    } else {
      var d :| lo <= d < hi && offset(d + 1) - offset(d) > DAY;
      NextMidnight(offset, d);
      assert bounds[d - lo] > bounds[d - lo + 1];
    }
  }

  predicate Ascending(dates: seq<int>) {
    forall i | 0 <= i < |dates| - 1 :: dates[i] < dates[i + 1]
  }

  function BoundsOf(offset: int -> int, dates: seq<int>): seq<Time> {
    seq(|dates|, k requires 0 <= k < |dates| => Midnight(offset, dates[k]))
  }

  lemma {:induction false} DatesWithin(dates: seq<int>, k: nat)
    requires Ascending(dates) && k < |dates|
    ensures dates[0] <= dates[k] <= dates[|dates| - 1]
  {
    DatesFrom(dates, 0, k);
    DatesFrom(dates, k, |dates| - 1);
  }

  lemma {:induction false} DatesFrom(dates: seq<int>, i: nat, k: nat)
    requires Ascending(dates) && i <= k < |dates|
    ensures dates[i] <= dates[k]
    decreases k - i
  {
    if i < k { DatesFrom(dates, i, k - 1); }
  }

  lemma SteadyBounds(offset: int -> int, dates: seq<int>)
    requires dates != [] && Ascending(dates) && Steady(offset, dates[0], dates[|dates| - 1])
    ensures Nondecreasing(BoundsOf(offset, dates)) && BoundsOf(offset, dates)[0] <= BoundsOf(offset, dates)[|dates| - 1]
  {
    forall i | 0 <= i < |dates| - 1 ensures Midnight(offset, dates[i]) <= Midnight(offset, dates[i + 1]) {
      DatesWithin(dates, i);
      DatesWithin(dates, i + 1);
      MidnightOrder(offset, dates[i], dates[i + 1]);
    }
    DatesWithin(dates, 0);
    MidnightOrder(offset, dates[0], dates[|dates| - 1]);
  }

  /** In a steady zone, any consecutive periods tile their range. */
  lemma SteadyPeriodsTile(offset: int -> int, dates: seq<int>)
    requires dates != [] && Ascending(dates) && Steady(offset, dates[0], dates[|dates| - 1])
    ensures Tiles(BoundsOf(offset, dates))
  {
    SteadyBounds(offset, dates);
    TilesIffMidnightsAscend(BoundsOf(offset, dates));
  }

  /** A zone that moves from twelve hours behind UTC to fourteen ahead between dates 1 and 2. */
  function Jump(): int -> int {
    (d: int) => if d < 2 then -12 * 3600 else 14 * 3600
  }

  /** Such a zone is not steady: the register of date 0 and that of date 2 both count the same event. */
  lemma BackwardMidnightCountsTwice()
    ensures !Steady(Jump(), 0, 3) && Counted(DailyBounds(Jump(), 0, 3), 125000) == 2
  {
    var bounds := DailyBounds(Jump(), 0, 3);
    assert Jump()(1 + 1) - Jump()(1) > DAY;
    assert bounds == [43200, 129600, 122400, 208800];
    assert bounds[..3] == [43200, 129600, 122400] && bounds[..3][..2] == [43200, 129600] && bounds[..3][..2][..1] == [43200];
    assert Counted([43200], 125000) == 0 && Counted([43200, 129600], 125000) == 1 && Counted([43200, 129600, 122400], 125000) == 1;
  }

  // ---------------------------------------------------------------- conservation over periods

  /** The nets of all periods together. */
  function AllPeriods(envelopes: seq<Envelope>, txs: seq<Tx>, court: nat, simulated: bool, bounds: seq<Time>): int {
    if |bounds| < 2 then 0
    else
      AllPeriods(envelopes, txs, court, simulated, bounds[..|bounds| - 1])
      + PeriodNet(envelopes, txs, court, simulated, bounds[|bounds| - 2], bounds[|bounds| - 1])
  }

  lemma {:induction false} PeriodsOneMore(envelopes: seq<Envelope>, txs: seq<Tx>, court: nat, simulated: bool, bounds: seq<Time>)
    requires txs != []
    ensures var last := txs[|txs| - 1];
            AllPeriods(envelopes, txs, court, simulated, bounds)
            == AllPeriods(envelopes, txs[..|txs| - 1], court, simulated, bounds) + Counted(bounds, last.at) * Signed(envelopes, last, court, simulated)
  {
    if |bounds| >= 2 {
      var n := |bounds| - 1;
      PeriodsOneMore(envelopes, txs, court, simulated, bounds[..n]);
      var signed, before := Signed(envelopes, txs[|txs| - 1], court, simulated), Counted(bounds[..n], txs[|txs| - 1].at);
      assert (before + 1) * signed == before * signed + signed;
    }
  }

  lemma {:induction false} NoPeriods(envelopes: seq<Envelope>, court: nat, simulated: bool, bounds: seq<Time>)
    ensures AllPeriods(envelopes, [], court, simulated, bounds) == 0
  {
    if |bounds| >= 2 { NoPeriods(envelopes, court, simulated, bounds[..|bounds| - 1]); }
  }

  /** Do the periods cover every credit and reversal in the history? */
  ghost predicate Covers(txs: seq<Tx>, bounds: seq<Time>)
    requires bounds != []
  {
    forall i | 0 <= i < |txs| && IsCredit(txs[i].event) :: Within(bounds[0], bounds[|bounds| - 1], txs[i].at)
  }

  lemma {:induction false} PeriodsAddUp(envelopes: seq<Envelope>, txs: seq<Tx>, court: nat, simulated: bool, bounds: seq<Time>)
    requires bounds != [] && Nondecreasing(bounds) && Covers(txs, bounds)
    ensures AllPeriods(envelopes, txs, court, simulated, bounds) == FeeGuarantees.Net(envelopes, txs, court, simulated)
  {
    if txs == [] {
      NoPeriods(envelopes, court, simulated, bounds);
    } else {
      var n := |txs| - 1;
      PeriodsAddUp(envelopes, txs[..n], court, simulated, bounds);
      PeriodsOneMore(envelopes, txs, court, simulated, bounds);
      FirstIsLeast(bounds, |bounds| - 1);
      TilesIffMidnightsAscend(bounds);
      if IsCredit(txs[n].event) {
        assert Counted(bounds, txs[n].at) == Indicator(bounds[0], bounds[|bounds| - 1], txs[n].at) == 1;
      } else {
        assert Signed(envelopes, txs[n], court, simulated) == 0;
      }
    }
  }

  /** Credits less reversals as the register reports them from one date to the day before another. */
  function NetReported(s: State, court: nat, simulated: bool, offset: int -> int, from: int, next: int): int {
    var report := ReportOf(s, court, from, next - 1, offset, true);
    Net(if simulated then report.simulated else report.real_)
  }

  /** The same over the reports of consecutive periods, each up to the day before the next starts. */
  function ReportedNet(s: State, court: nat, simulated: bool, offset: int -> int, dates: seq<int>): int {
    if |dates| < 2 then 0
    else
      var n := |dates| - 1;
      ReportedNet(s, court, simulated, offset, dates[..n]) + NetReported(s, court, simulated, offset, dates[n - 1], dates[n])
  }

  lemma BoundsInit(offset: int -> int, dates: seq<int>)
    requires |dates| >= 2
    ensures var n, bounds := |dates| - 1, BoundsOf(offset, dates);
            && |bounds| == n + 1 && bounds[..n] == BoundsOf(offset, dates[..n])
            && bounds[n - 1] == Midnight(offset, dates[n - 1]) && bounds[n] == Midnight(offset, dates[n])
  {
    hide Midnight;
  }

  lemma ReportNet(s: State, court: nat, simulated: bool, offset: int -> int, from: int, next: int)
    ensures NetReported(s, court, simulated, offset, from, next)
         == PeriodNet(s.envelopes, s.txs, court, simulated, Midnight(offset, from), Midnight(offset, next))
  {
    assert next - 1 + 1 == next;
    TotalsNet(s, s.txs, court, simulated, Midnight(offset, from), Midnight(offset, next));
    hide PeriodTotals, PeriodNet, Entries, Midnight;
  }

  lemma LastReport(s: State, court: nat, simulated: bool, offset: int -> int, dates: seq<int>)
    requires |dates| >= 2
    ensures var n := |dates| - 1;
            ReportedNet(s, court, simulated, offset, dates)
            == ReportedNet(s, court, simulated, offset, dates[..n])
               + PeriodNet(s.envelopes, s.txs, court, simulated, Midnight(offset, dates[n - 1]), Midnight(offset, dates[n]))
  {
    hide NetReported, PeriodNet, Midnight;
    ReportNet(s, court, simulated, offset, dates[|dates| - 2], dates[|dates| - 1]);
  }

  lemma LastPeriod(envelopes: seq<Envelope>, txs: seq<Tx>, court: nat, simulated: bool, bounds: seq<Time>)
    requires |bounds| >= 2
    ensures var n := |bounds| - 1;
            AllPeriods(envelopes, txs, court, simulated, bounds)
            == AllPeriods(envelopes, txs, court, simulated, bounds[..n]) + PeriodNet(envelopes, txs, court, simulated, bounds[n - 1], bounds[n])
  {
    hide PeriodNet;
  }

  lemma NoReports(s: State, court: nat, simulated: bool, offset: int -> int, dates: seq<int>)
    requires |dates| < 2
    ensures ReportedNet(s, court, simulated, offset, dates) == AllPeriods(s.envelopes, s.txs, court, simulated, BoundsOf(offset, dates))
  {
  }

  lemma {:induction false} ReportsArePeriods(s: State, court: nat, simulated: bool, offset: int -> int, dates: seq<int>)
    ensures ReportedNet(s, court, simulated, offset, dates) == AllPeriods(s.envelopes, s.txs, court, simulated, BoundsOf(offset, dates))
  {
    hide *;
    if |dates| < 2 {
      NoReports(s, court, simulated, offset, dates);
    } else {
      var init := dates[..|dates| - 1];
      ReportsArePeriods(s, court, simulated, offset, init);
      BoundsInit(offset, dates);
      LastReport(s, court, simulated, offset, dates);
      LastPeriod(s.envelopes, s.txs, court, simulated, BoundsOf(offset, dates));
    }
  }

  /** Leaving simulated entries out of a report changes nothing about its real totals. */
  lemma RealTotalsEitherWay(s: State, court: nat, from: int, to: int, offset: int -> int)
    ensures ReportOf(s, court, from, to, offset, false).real_ == ReportOf(s, court, from, to, offset, true).real_
  {
  }

  /**
   In every reachable state and every steady zone, the reports of consecutive periods that cover
   the history add up to the court's external payments that still stand, simulated and real apart.
   */
  lemma RegistersConserve(cfg: Config, r: seq<State>, x: nat, court: nat, simulated: bool, offset: int -> int, dates: seq<int>)
    requires FilingRuns.Run(cfg, r) && x < |r| && dates != [] && Ascending(dates) && Steady(offset, dates[0], dates[|dates| - 1])
    requires Covers(r[x].txs, BoundsOf(offset, dates))
    ensures ReportedNet(r[x], court, simulated, offset, dates) == StandingTotal(r[x].envelopes, r[x].payments, court, simulated)
  {
    hide FilingRuns.Run, ReportedNet;
    CreditsConserved(cfg, r, x, court, simulated);
    SteadyBounds(offset, dates);
    PeriodsAddUp(r[x].envelopes, r[x].txs, court, simulated, BoundsOf(offset, dates));
    ReportsArePeriods(r[x], court, simulated, offset, dates);
  }
}
