/** Each figure of the register on its own: over consecutive periods every credit and every reversal is counted once. */
module RegisterTotals {
  import opened Common
  import opened Filings
  import opened FeeGuarantees
  import opened PaymentRegister

  // ---------------------------------------------------------------- sums over periods

  /** What a history row is worth to one figure. */
  type Weight = Tx -> int

  function Sum(txs: seq<Tx>, w: Weight): int {
    if txs == [] then 0 else Sum(txs[..|txs| - 1], w) + w(txs[|txs| - 1])
  }

  function PeriodSum(txs: seq<Tx>, w: Weight, a: Time, b: Time): int {
    if txs == [] then 0
    else PeriodSum(txs[..|txs| - 1], w, a, b) + if Within(a, b, txs[|txs| - 1].at) then w(txs[|txs| - 1]) else 0
  }

  function AllSums(txs: seq<Tx>, w: Weight, bounds: seq<Time>): int {
    if |bounds| < 2 then 0
    else AllSums(txs, w, bounds[..|bounds| - 1]) + PeriodSum(txs, w, bounds[|bounds| - 2], bounds[|bounds| - 1])
  }

  lemma {:induction false} SumsOneMore(txs: seq<Tx>, w: Weight, bounds: seq<Time>)
    requires txs != []
    ensures var last := txs[|txs| - 1]; AllSums(txs, w, bounds) == AllSums(txs[..|txs| - 1], w, bounds) + Counted(bounds, last.at) * w(last)
  {
    if |bounds| >= 2 {
      var n := |bounds| - 1;
      SumsOneMore(txs, w, bounds[..n]);
      var worth, before := w(txs[|txs| - 1]), Counted(bounds[..n], txs[|txs| - 1].at);
      assert (before + 1) * worth == before * worth + worth;
    }
  }

  lemma {:induction false} NoSums(w: Weight, bounds: seq<Time>)
    ensures AllSums([], w, bounds) == 0
  {
    if |bounds| >= 2 { NoSums(w, bounds[..|bounds| - 1]); }
  }

  lemma {:induction false} SumsAddUp(txs: seq<Tx>, w: Weight, bounds: seq<Time>)
    requires bounds != [] && Nondecreasing(bounds)
    requires forall i | 0 <= i < |txs| :: w(txs[i]) == 0 || Within(bounds[0], bounds[|bounds| - 1], txs[i].at)
    ensures AllSums(txs, w, bounds) == Sum(txs, w)
  {
    if txs == [] {
      NoSums(w, bounds);
    } else {
      var n := |txs| - 1;
      SumsAddUp(txs[..n], w, bounds);
      SumsOneMore(txs, w, bounds);
      FirstIsLeast(bounds, |bounds| - 1);
      TilesIffMidnightsAscend(bounds);
      assert Counted(bounds, txs[n].at) == Indicator(bounds[0], bounds[|bounds| - 1], txs[n].at);
      assert w(txs[n]) == 0 || Counted(bounds, txs[n].at) == 1;
    }
  }

  // ---------------------------------------------------------------- the register's figures

  /** A row of the court's, of the class asked for. */
  predicate OfCourt(s: State, tx: Tx, court: nat, simulated: bool) {
    && (tx.event.CreditRecorded? || tx.event.CreditReversed?) && tx.event.simulated == simulated
    && tx.filing < |s.envelopes| && s.envelopes[tx.filing].court == court
  }

  /** The amount of a credit. */
  function Credits(s: State, court: nat, simulated: bool): Weight {
    (tx: Tx) => if OfCourt(s, tx, court, simulated) && tx.event.CreditRecorded? then tx.event.amount else 0
  }

  /** The amount of a reversal. */
  function Reversals(s: State, court: nat, simulated: bool): Weight {
    (tx: Tx) => if OfCourt(s, tx, court, simulated) && tx.event.CreditReversed? then tx.event.amount else 0
  }

  /** One for each credit and reversal shown. */
  function Shown(s: State, court: nat, includeSimulated: bool): Weight {
    (tx: Tx) => if OfCourt(s, tx, court, false) || (includeSimulated && OfCourt(s, tx, court, true)) then 1 else 0
  }

  lemma {:induction false} FiguresAre(s: State, txs: seq<Tx>, court: nat, simulated: bool, includeSimulated: bool, a: Time, b: Time)
    ensures PeriodTotals(s, txs, court, simulated, a, b).credits == PeriodSum(txs, Credits(s, court, simulated), a, b)
    ensures PeriodTotals(s, txs, court, simulated, a, b).reversals == PeriodSum(txs, Reversals(s, court, simulated), a, b)
    ensures Entries(s, txs, court, includeSimulated, a, b) == PeriodSum(txs, Shown(s, court, includeSimulated), a, b)
  {
    if txs != [] { FiguresAre(s, txs[..|txs| - 1], court, simulated, includeSimulated, a, b); }
  }

  /** What a report says of a period, figure by figure, in the rows' own terms. */
  lemma ReportSays(s: State, court: nat, from: int, next: int, offset: int -> int)
    ensures var a, b, report := Midnight(offset, from), Midnight(offset, next), ReportOf(s, court, from, next - 1, offset, true);
            && report.real_.credits == PeriodSum(s.txs, Credits(s, court, false), a, b) && report.real_.reversals == PeriodSum(s.txs, Reversals(s, court, false), a, b)
            && report.simulated.credits == PeriodSum(s.txs, Credits(s, court, true), a, b) && report.simulated.reversals == PeriodSum(s.txs, Reversals(s, court, true), a, b)
            && report.entries == PeriodSum(s.txs, Shown(s, court, true), a, b)
            && ReportOf(s, court, from, next - 1, offset, false).entries == PeriodSum(s.txs, Shown(s, court, false), a, b)
  {
    assert next - 1 + 1 == next;
    FiguresAre(s, s.txs, court, false, true, Midnight(offset, from), Midnight(offset, next));
    FiguresAre(s, s.txs, court, true, false, Midnight(offset, from), Midnight(offset, next));
    hide PeriodSum, PeriodTotals, Entries, Midnight;
  }

  /** The figures of the reports of consecutive periods, each up to the day before the next starts, added up. */
  function Reported(s: State, court: nat, offset: int -> int, dates: seq<int>): (r: (nat, Totals)) {
    if |dates| < 2 then (0, Totals(0, 0))
    else
      var n := |dates| - 1;
      var before, report := Reported(s, court, offset, dates[..n]), ReportOf(s, court, dates[n - 1], dates[n] - 1, offset, true);
      (before.0 + report.entries, Totals(before.1.credits + report.real_.credits, before.1.reversals + report.real_.reversals))
  }

  lemma {:induction false} ReportedAreSums(s: State, court: nat, offset: int -> int, dates: seq<int>)
    ensures var bounds, r := BoundsOf(offset, dates), Reported(s, court, offset, dates);
            && r.0 == AllSums(s.txs, Shown(s, court, true), bounds)
            && r.1.credits == AllSums(s.txs, Credits(s, court, false), bounds) && r.1.reversals == AllSums(s.txs, Reversals(s, court, false), bounds)
  {
    hide PeriodSum, ReportOf, Midnight;
    if |dates| >= 2 {
      var n := |dates| - 1;
      ReportedAreSums(s, court, offset, dates[..n]);
      BoundsInit(offset, dates);
      ReportSays(s, court, dates[n - 1], dates[n], offset);
    }
  }

  /**
   Over consecutive periods of a steady zone that cover the history, the reports show every credit
   and reversal of the court once, and their real credits and reversals are each the whole amount.
   */
  lemma RegisterCountsOnce(s: State, court: nat, offset: int -> int, dates: seq<int>)
    requires dates != [] && Ascending(dates) && Steady(offset, dates[0], dates[|dates| - 1]) && Covers(s.txs, BoundsOf(offset, dates))
    ensures var r := Reported(s, court, offset, dates);
            && r.0 == Sum(s.txs, Shown(s, court, true))
            && r.1.credits == Sum(s.txs, Credits(s, court, false)) && r.1.reversals == Sum(s.txs, Reversals(s, court, false))
  {
    SteadyBounds(offset, dates);
    ReportedAreSums(s, court, offset, dates);
    var bounds := BoundsOf(offset, dates);
    hide Reported, AllSums, Sum, BoundsOf, Midnight;
    SumsAddUp(s.txs, Shown(s, court, true), bounds);
    SumsAddUp(s.txs, Credits(s, court, false), bounds);
    SumsAddUp(s.txs, Reversals(s, court, false), bounds);
  }
}
