/**
 The filing-date rule of MCR 1.109(G)(5): a submission is dated to the first day its court is
 open, read from the court's published calendar revisions.
 */
module CourtCalendars {
  import opened Common

  /** A date as an ordinal in which day 1 is a Monday. */
  type Day = int
  type Zone = string

  const SECONDS_PER_DAY := 86400
  const SEARCH_LIMIT: nat := 367

  datatype Calendar = Calendar(id: nat, court: nat, timezone: Zone,
                               validFrom: Day, validThrough: Day, closed: map<Day, string>)
  {
    predicate Covers(day: Day) {
      validFrom <= day <= validThrough
    }
  }

  datatype DateError = NoCalendar | Unresolved | NoBusinessDay

  datatype Assessment = Assessment(filingDate: Option<Day>, timezone: Option<Zone>,
                                   localReceived: Option<Day>, calendarIds: seq<nat>,
                                   skipped: map<Day, string>, error: Option<DateError>)

  predicate Weekend(day: Day) {
    (day + 6) % 7 >= 5
  }

  function UtcDay(at: Time): Day {
    at / SECONDS_PER_DAY
  }

  /** The calendar date of an instant in a zone, given each zone's offset at that instant. */
  function LocalDays(at: Time, offset: Zone -> int): Zone -> Day {
    (zone: Zone) => (at + offset(zone)) / SECONDS_PER_DAY
  }

  /** The local date holds the instant: its midnight is not after it and the next one is. */
  lemma LocalDateHolds(at: Time, offset: Zone -> int, zone: Zone)
    ensures var d := LocalDays(at, offset)(zone); SECONDS_PER_DAY * d - offset(zone) <= at < SECONDS_PER_DAY * (d + 1) - offset(zone)
  {
  }

  function FirstMatch(calendars: seq<Calendar>, p: Calendar -> bool): (r: Option<Calendar>)
    ensures r.Some? ==> p(r.value) && r.value in calendars
  {
    if calendars == [] then None
    else if p(calendars[0]) then Some(calendars[0])
    else FirstMatch(calendars[1..], p)
  }

  lemma {:induction false} NoMatch(calendars: seq<Calendar>, p: Calendar -> bool)
    requires FirstMatch(calendars, p).None?
    ensures forall c | c in calendars :: !p(c)
  {
    if calendars != [] {
      NoMatch(calendars[1..], p);
      assert calendars == [calendars[0]] + calendars[1..];
    }
  }

  function OnDay(day: Day): Calendar -> bool {
    (c: Calendar) => c.Covers(day)
  }

  function OnReceipt(local: Zone -> Day): Calendar -> bool {
    (c: Calendar) => c.Covers(local(c.timezone))
  }

  function Covering(calendars: seq<Calendar>, day: Day): Option<Calendar> {
    FirstMatch(calendars, OnDay(day))
  }

  function Initial(calendars: seq<Calendar>, local: Zone -> Day): Option<Calendar> {
    FirstMatch(calendars, OnReceipt(local))
  }

  /** Which revision answers for each day. */
  type Lookup = Day -> Option<Calendar>

  function LookupIn(calendars: seq<Calendar>): Lookup {
    (day: Day) => Covering(calendars, day)
  }

  /** Is the day covered by a revision in the receipt's own zone? */
  predicate Resolved(on: Lookup, zone: Zone, day: Day) {
    on(day).Some? && on(day).value.timezone == zone
  }

  predicate Open(on: Lookup, zone: Zone, day: Day) {
    Resolved(on, zone, day) && day !in on(day).value.closed && !Weekend(day)
  }

  predicate Shut(on: Lookup, zone: Zone, day: Day) {
    Resolved(on, zone, day) && !Open(on, zone, day)
  }

  function SkipReason(on: Lookup, day: Day): string {
    var c := on(day);
    if c.Some? && day in c.value.closed && c.value.closed[day] != "" then c.value.closed[day] else "Weekend"
  }

  /** How many consecutive days from `day` on are shut, up to `limit`. */
  function ShutRun(on: Lookup, zone: Zone, day: Day, limit: nat): (n: nat)
    ensures n <= limit
    ensures forall d | day <= d < day + n :: Shut(on, zone, d)
    ensures n < limit ==> !Shut(on, zone, day + n)
    decreases limit
  {
    if limit == 0 || !Shut(on, zone, day) then 0
    else 1 + ShutRun(on, zone, day + 1, limit - 1)
  }

  function AddId(ids: seq<nat>, id: nat): seq<nat> {
    if id in ids then ids else ids + [id]
  }

  /** The distinct revisions consulted over `n` days, in the order they were first needed. */
  function Consulted(on: Lookup, day: Day, n: nat): seq<nat> {
    if n == 0 then []
    else
      var ids, c := Consulted(on, day, n - 1), on(day + n - 1);
      if c.None? then ids else AddId(ids, c.value.id)
  }

  function Skipped(on: Lookup, first: Day, n: nat): map<Day, string> {
    map d | first <= d < first + n :: SkipReason(on, d)
  }

  lemma SkippedStep(on: Lookup, first: Day, n: nat)
    ensures Skipped(on, first, n + 1) == Skipped(on, first, n)[first + n := SkipReason(on, first + n)]
  {
  }

  lemma {:induction false} SkippedCongruence(a: Lookup, b: Lookup, first: Day, n: nat)
    requires forall d | first <= d < first + n :: a(d) == b(d)
    ensures Skipped(a, first, n) == Skipped(b, first, n)
  {
    if n > 0 {
      SkippedCongruence(a, b, first, n - 1);
      SkippedStep(a, first, n - 1);
      SkippedStep(b, first, n - 1);
      assert a(first + n - 1) == b(first + n - 1);
    }
  }

  /** What the search must report, stated from the length of the run of shut days. */
  function Report(on: Lookup, zone: Zone, first: Day, limit: nat): Assessment {
    var n := ShutRun(on, zone, first, limit);
    var skipped := Skipped(on, first, n);
    if n == limit then
      Assessment(None, Some(zone), Some(first), Consulted(on, first, n), skipped, Some(NoBusinessDay))
    else if Resolved(on, zone, first + n) then
      Assessment(Some(first + n), Some(zone), Some(first), Consulted(on, first, n + 1), skipped, None)
    else
      Assessment(None, Some(zone), Some(first), Consulted(on, first, n), skipped, Some(Unresolved))
  }

  function Assess(calendars: seq<Calendar>, local: Zone -> Day, limit: nat): Assessment {
    var initial := Initial(calendars, local);
    if initial.None? then Assessment(None, None, None, [], map[], Some(NoCalendar))
    else Report(LookupIn(calendars), initial.value.timezone, local(initial.value.timezone), limit)
  }

  /** The day-by-day search, as the service performs it. */
  method Search(on: Lookup, zone: Zone, first: Day, limit: nat) returns (result: Assessment)
    ensures result == Report(on, zone, first, limit)
  {
    result := Assessment(None, Some(zone), Some(first), [], map[], None);
    var day := first;
    ghost var n := ShutRun(on, zone, first, limit);
    for i := 0 to limit
      invariant day == first + i && i <= n
      invariant result == Assessment(None, Some(zone), Some(first), Consulted(on, first, i), Skipped(on, first, i), None)
    {
      var calendar := on(day);
      assert Shut(on, zone, day) <==> i < n;
      if calendar.None? || calendar.value.timezone != zone {
        result := result.(error := Some(Unresolved));
        return;
      }
      result := result.(calendarIds := AddId(result.calendarIds, calendar.value.id));
      if day !in calendar.value.closed && !Weekend(day) {
        result := result.(filingDate := Some(day));
        return;
      }
      var closed := calendar.value.closed;
      var reason := if day in closed && closed[day] != "" then closed[day] else "Weekend";
      SkippedStep(on, first, i);
      result := result.(skipped := result.skipped[day := reason]);
      day := day + 1;
    }
    result := result.(error := Some(NoBusinessDay));
  }

  method AssessDate(calendars: seq<Calendar>, local: Zone -> Day, limit: nat) returns (result: Assessment)
    ensures result == Assess(calendars, local, limit)
  {
    var initial := Initial(calendars, local);
    if initial.None? {
      result := Assessment(None, None, None, [], map[], Some(NoCalendar));
    } else {
      var zone := initial.value.timezone;
      result := Search(LookupIn(calendars), zone, local(zone), limit);
    }
  }

  /** The court's revisions in a window of days, newest first; the table is in id order. */
  function NewestFirst(table: seq<Calendar>, court: nat, lo: Day, hi: Day): seq<Calendar> {
    if table == [] then []
    else
      var c := table[|table| - 1];
      var rest := NewestFirst(table[..|table| - 1], court, lo, hi);
      if c.court == court && c.validThrough >= lo && c.validFrom <= hi then [c] + rest else rest
  }

  /** Every revision of the court, newest first. */
  function AllNewestFirst(table: seq<Calendar>, court: nat): seq<Calendar> {
    if table == [] then []
    else
      var c := table[|table| - 1];
      var rest := AllNewestFirst(table[..|table| - 1], court);
      if c.court == court then [c] + rest else rest
  }

  /**
   The assessment reads only the revisions in a window around the receipt, yet equals the
   assessment over every revision the court has ever published.
   */
  method FilingDateForReceipt(table: seq<Calendar>, court: nat, at: Time, offset: Zone -> int)
    returns (result: Assessment)
    requires forall z :: -SECONDS_PER_DAY < offset(z) < SECONDS_PER_DAY
    ensures result == Assess(AllNewestFirst(table, court), LocalDays(at, offset), SEARCH_LIMIT)
  {
    var day := UtcDay(at);
    var limit: nat := SEARCH_LIMIT;
    var calendars := NewestFirst(table, court, day - 1, day + limit);
    var local := LocalDays(at, offset);
    result := AssessDate(calendars, local, limit);
    WindowSuffices(table, court, day, local, limit);
  }

  lemma {:induction false} FirstMatchInWindow(table: seq<Calendar>, court: nat, lo: Day, hi: Day, p: Calendar -> bool)
    requires forall c: Calendar :: p(c) ==> c.validThrough >= lo && c.validFrom <= hi
    ensures FirstMatch(NewestFirst(table, court, lo, hi), p) == FirstMatch(AllNewestFirst(table, court), p)
  {
    if table != [] {
      var c, older := table[|table| - 1], table[..|table| - 1];
      FirstMatchInWindow(older, court, lo, hi, p);
      var window, all := NewestFirst(older, court, lo, hi), AllNewestFirst(older, court);
      assert ([c] + window)[1..] == window && ([c] + all)[1..] == all;
    }
  }

  lemma InitialInWindow(table: seq<Calendar>, court: nat, lo: Day, hi: Day, local: Zone -> Day)
    requires forall z :: lo <= local(z) <= hi
    ensures Initial(NewestFirst(table, court, lo, hi), local) == Initial(AllNewestFirst(table, court), local)
  {
    FirstMatchInWindow(table, court, lo, hi, OnReceipt(local));
  }

  lemma LookupInWindow(table: seq<Calendar>, court: nat, lo: Day, hi: Day)
    ensures forall d | lo <= d <= hi :: LookupIn(NewestFirst(table, court, lo, hi))(d) == LookupIn(AllNewestFirst(table, court))(d)
  {
    forall d | lo <= d <= hi
      ensures LookupIn(NewestFirst(table, court, lo, hi))(d) == LookupIn(AllNewestFirst(table, court))(d)
    {
      FirstMatchInWindow(table, court, lo, hi, OnDay(d));
    }
  }

  lemma {:induction false} ShutRunCongruence(a: Lookup, b: Lookup, zone: Zone, day: Day, limit: nat)
    requires forall d | day <= d < day + limit :: a(d) == b(d)
    ensures ShutRun(a, zone, day, limit) == ShutRun(b, zone, day, limit)
    decreases limit
  {
    if limit > 0 {
      assert a(day) == b(day);
      ShutRunCongruence(a, b, zone, day + 1, limit - 1);
    }
  }

  lemma {:induction false} ConsultedCongruence(a: Lookup, b: Lookup, day: Day, n: nat)
    requires forall d | day <= d < day + n :: a(d) == b(d)
    ensures Consulted(a, day, n) == Consulted(b, day, n)
  {
    if n > 0 {
      ConsultedCongruence(a, b, day, n - 1);
      assert a(day + n - 1) == b(day + n - 1);
    }
  }

  lemma ReportCongruence(a: Lookup, b: Lookup, zone: Zone, first: Day, limit: nat)
    requires forall d | first <= d < first + limit :: a(d) == b(d)
    ensures Report(a, zone, first, limit) == Report(b, zone, first, limit)
  {
    ShutRunCongruence(a, b, zone, first, limit);
    var n := ShutRun(a, zone, first, limit);
    ConsultedCongruence(a, b, first, n);
    if n < limit {
      assert a(first + n) == b(first + n);
      ConsultedCongruence(a, b, first, n + 1);
    }
    SkippedCongruence(a, b, first, n);
  }

  /** Any zone whose offset is under a day keeps the search inside the queried window. */
  lemma WindowSuffices(table: seq<Calendar>, court: nat, day: Day, local: Zone -> Day, limit: nat)
    requires limit >= 1 && forall z :: day - 1 <= local(z) <= day + 1
    ensures Assess(NewestFirst(table, court, day - 1, day + limit), local, limit)
         == Assess(AllNewestFirst(table, court), local, limit)
  {
    InitialInWindow(table, court, day - 1, day + limit, local);
    var window := NewestFirst(table, court, day - 1, day + limit);
    var all := AllNewestFirst(table, court);
    LookupInWindow(table, court, day - 1, day + limit);
    if Initial(all, local).Some? {
      var zone := Initial(all, local).value.timezone;
      ReportCongruence(LookupIn(window), LookupIn(all), zone, local(zone), limit);
    }
  }

  /** A revision governs a day when it covers it and no newer revision of the court does. */
  ghost predicate Governs(table: seq<Calendar>, court: nat, c: Calendar, day: Day) {
    && c in table && c.court == court && c.Covers(day)
    && forall o | o in table && o.court == court && o.Covers(day) :: o.id <= c.id
  }

  ghost predicate InIdOrder(table: seq<Calendar>) {
    forall i, j | 0 <= i < j < |table| :: table[i].id < table[j].id
  }

  lemma NewestHasGreatestId(table: seq<Calendar>)
    requires InIdOrder(table) && table != []
    ensures var older := table[..|table| - 1];
            && table == older + [table[|table| - 1]] && InIdOrder(older)
            && forall o | o in older :: o.id < table[|table| - 1].id
  {
    var older := table[..|table| - 1];
    forall o | o in older ensures o.id < table[|table| - 1].id {
      var i :| 0 <= i < |older| && older[i] == o;
      assert table[i] == o;
    }
  }

  lemma {:induction false} CoveringGoverns(table: seq<Calendar>, court: nat, day: Day)
    requires InIdOrder(table)
    ensures var c := Covering(AllNewestFirst(table, court), day);
            if c.Some? then Governs(table, court, c.value, day)
            else forall o | o in table && o.court == court :: !o.Covers(day)
  {
    if table != [] {
      var newest, older := table[|table| - 1], table[..|table| - 1];
      NewestHasGreatestId(table);
      CoveringGoverns(older, court, day);
      var rest := AllNewestFirst(older, court);
      assert ([newest] + rest)[1..] == rest;
      assert forall o :: o in table <==> o in older || o == newest;
    }
  }

  /** A Monday; the days five and six after one are its weekend. */
  const MONDAY: Day := 1

  /** Nothing is filed on that day: the governing revision closes it, or it is a Saturday or a Sunday. */
  ghost predicate ClosedDay(table: seq<Calendar>, court: nat, zone: Zone, day: Day) {
    exists c :: Governs(table, court, c, day) && c.timezone == zone && (day in c.closed || (day - MONDAY) % 7 == 5 || (day - MONDAY) % 7 == 6)
  }

  ghost predicate ClosedFrom(table: seq<Calendar>, court: nat, zone: Zone, first: Day, end: Day) {
    forall d | first <= d < end :: ClosedDay(table, court, zone, d)
  }

  /** It is a Monday to Friday, and the governing revision is in the zone and leaves it open. */
  ghost predicate OpenDay(table: seq<Calendar>, court: nat, zone: Zone, day: Day) {
    0 <= (day - MONDAY) % 7 <= 4 && exists c :: Governs(table, court, c, day) && c.timezone == zone && day !in c.closed
  }

  ghost predicate Ungoverned(table: seq<Calendar>, court: nat, zone: Zone, day: Day) {
    forall c | Governs(table, court, c, day) :: c.timezone != zone
  }

  lemma SearchOutcome(on: Lookup, zone: Zone, first: Day, limit: nat)
    ensures var a := Report(on, zone, first, limit);
            var n := ShutRun(on, zone, first, limit);
            && (a.filingDate.Some? <==> a.error.None?)
            && (forall d :: d in a.skipped <==> first <= d < first + n)
            && (a.filingDate.Some? ==> n < limit && a.filingDate.value == first + n && Open(on, zone, first + n))
            && (a.error == Some(NoBusinessDay) ==> n == limit)
            && (a.error == Some(Unresolved) ==> n < limit && !Resolved(on, zone, first + n))
  {
  }

  /**
   The date is the first open day from `first` on, under the newest covering revision of each
   day, and the skipped dates are exactly the days before it.
   */
  ghost predicate FiledOnEarliest(table: seq<Calendar>, court: nat, zone: Zone, first: Day, limit: nat, a: Assessment) {
    && a.filingDate.Some? && a.error.None?
    && first <= a.filingDate.value < first + limit
    && OpenDay(table, court, zone, a.filingDate.value)
    && ClosedFrom(table, court, zone, first, a.filingDate.value)
    && (forall d :: d in a.skipped <==> first <= d < a.filingDate.value)
  }

  /** Every day before `day` is closed, and no revision in the zone governs `day` itself. */
  ghost predicate FirstObstacle(table: seq<Calendar>, court: nat, zone: Zone, first: Day, limit: nat, day: Day) {
    && first <= day < first + limit
    && ClosedFrom(table, court, zone, first, day)
    && Ungoverned(table, court, zone, day)
  }

  /** No date is given only because coverage ran out, or because every day searched is closed. */
  ghost predicate NoOpenDay(table: seq<Calendar>, court: nat, zone: Zone, first: Day, limit: nat, a: Assessment) {
    && a.filingDate.None?
    && (a.error == Some(Unresolved) || a.error == Some(NoBusinessDay))
    && (a.error == Some(Unresolved) ==> exists day :: FirstObstacle(table, court, zone, first, limit, day))
    && (a.error == Some(NoBusinessDay) ==> ClosedFrom(table, court, zone, first, first + limit))
  }

  /** The lookup answers for each day as the table's governing revision does. */
  ghost predicate Answers(on: Lookup, table: seq<Calendar>, court: nat, zone: Zone) {
    && (forall d :: Shut(on, zone, d) ==> ClosedDay(table, court, zone, d))
    && (forall d :: Open(on, zone, d) ==> OpenDay(table, court, zone, d))
    && (forall d :: !Resolved(on, zone, d) ==> Ungoverned(table, court, zone, d))
  }

  lemma AnswersAfterRun(on: Lookup, table: seq<Calendar>, court: nat, zone: Zone, first: Day, limit: nat)
    requires Answers(on, table, court, zone)
    ensures var n := ShutRun(on, zone, first, limit);
            && ClosedFrom(table, court, zone, first, first + n)
            && (Open(on, zone, first + n) ==> OpenDay(table, court, zone, first + n))
            && (!Resolved(on, zone, first + n) ==> Ungoverned(table, court, zone, first + n))
  {
  }

  lemma ReportIsEarliest(on: Lookup, table: seq<Calendar>, court: nat, zone: Zone, first: Day, limit: nat)
    requires var n := ShutRun(on, zone, first, limit);
             && ClosedFrom(table, court, zone, first, first + n)
             && (Open(on, zone, first + n) ==> OpenDay(table, court, zone, first + n))
             && (!Resolved(on, zone, first + n) ==> Ungoverned(table, court, zone, first + n))
    ensures var a := Report(on, zone, first, limit);
            if a.filingDate.Some? then FiledOnEarliest(table, court, zone, first, limit, a)
            else NoOpenDay(table, court, zone, first, limit, a)
  {
    SearchOutcome(on, zone, first, limit);
    var n := ShutRun(on, zone, first, limit);
    if Report(on, zone, first, limit).error == Some(Unresolved) {
      assert FirstObstacle(table, court, zone, first, limit, first + n);
    }
  }

  /** No date and no zone exactly when no revision covers the received date in its own zone. */
  lemma UncoveredReceipt(table: seq<Calendar>, court: nat, local: Zone -> Day, limit: nat)
    ensures var a := Assess(AllNewestFirst(table, court), local, limit);
            && (a.error == Some(NoCalendar) <==> forall c | c in table && c.court == court :: !c.Covers(local(c.timezone)))
            && (a.error == Some(NoCalendar) ==> a.filingDate.None? && a.timezone.None?)
  {
    var all := AllNewestFirst(table, court);
    AllRevisions(table, court);
    var initial := Initial(all, local);
    if initial.None? {
      NoMatch(all, OnReceipt(local));
      forall c | c in table && c.court == court ensures !c.Covers(local(c.timezone)) {
        assert !OnReceipt(local)(c);
      }
    } else {
      assert initial.value in all;
    }
  }

  /**
   The assessment of a receipt that some revision covers, for every table of revisions: the
   earliest open day from the local received date on, or why there is none.
   */
  lemma AssessedDate(table: seq<Calendar>, court: nat, local: Zone -> Day, limit: nat)
    requires InIdOrder(table) && Initial(AllNewestFirst(table, court), local).Some?
    ensures var a := Assess(AllNewestFirst(table, court), local, limit);
            && a.timezone.Some? && a.localReceived == Some(local(a.timezone.value))
            && if a.filingDate.Some? then FiledOnEarliest(table, court, a.timezone.value, a.localReceived.value, limit, a)
               else NoOpenDay(table, court, a.timezone.value, a.localReceived.value, limit, a)
  {
    var all := AllNewestFirst(table, court);
    AllRevisions(table, court);
    var zone := Initial(all, local).value.timezone;
    TableAnswers(table, court, zone);
    AnswersAfterRun(LookupIn(all), table, court, zone, local(zone), limit);
    ReportIsEarliest(LookupIn(all), table, court, zone, local(zone), limit);
  }

  lemma TableAnswers(table: seq<Calendar>, court: nat, zone: Zone)
    requires InIdOrder(table)
    ensures Answers(LookupIn(AllNewestFirst(table, court)), table, court, zone)
  {
    var all := AllNewestFirst(table, court);
    forall d: Day ensures
      && (Shut(LookupIn(all), zone, d) ==> ClosedDay(table, court, zone, d))
      && (Open(LookupIn(all), zone, d) ==> OpenDay(table, court, zone, d))
      && (!Resolved(LookupIn(all), zone, d) ==> Ungoverned(table, court, zone, d))
    {
      CoveringGoverns(table, court, d);
      var c := Covering(all, d);
      if c.Some? {
        forall o | Governs(table, court, o, d) ensures o == c.value { GoverningUnique(table, court, o, c.value, d); }
      }
    }
  }

  lemma GoverningUnique(table: seq<Calendar>, court: nat, c: Calendar, o: Calendar, day: Day)
    requires InIdOrder(table) && Governs(table, court, c, day) && Governs(table, court, o, day)
    ensures c == o
  {
    var i :| 0 <= i < |table| && table[i] == c;
    var j :| 0 <= j < |table| && table[j] == o;
  }

  lemma {:induction false} AllRevisions(table: seq<Calendar>, court: nat)
    ensures forall c :: c in AllNewestFirst(table, court) <==> c in table && c.court == court
  {
    if table != [] {
      AllRevisions(table[..|table| - 1], court);
      assert table == table[..|table| - 1] + [table[|table| - 1]];
    }
  }

  // ---------------------------------------------------------------- what an assessment cites

  /** The revision of that id governs the day. */
  ghost predicate CitedFor(table: seq<Calendar>, court: nat, id: nat, day: Day) {
    exists c :: Governs(table, court, c, day) && c.id == id
  }

  /** The day is skipped for the reason its governing revision gives, or as a weekend. */
  ghost predicate ReasonGiven(table: seq<Calendar>, court: nat, day: Day, reason: string) {
    exists c :: Governs(table, court, c, day) && reason == if day in c.closed && c.closed[day] != "" then c.closed[day] else "Weekend"
  }

  predicate OnId(on: Lookup, day: Day, id: nat) {
    on(day).Some? && on(day).value.id == id
  }

  ghost predicate OnSome(on: Lookup, first: Day, n: nat, id: nat) {
    exists d | first <= d < first + n :: OnId(on, d, id)
  }

  lemma OnOneMore(on: Lookup, first: Day, n: nat, id: nat)
    ensures OnSome(on, first, n + 1, id) <==> OnSome(on, first, n, id) || OnId(on, first + n, id)
  {
  }

  lemma {:induction false} ConsultedAre(on: Lookup, first: Day, n: nat)
    ensures var ids := Consulted(on, first, n);
            (forall id: nat :: id in ids <==> OnSome(on, first, n, id)) && forall i, j | 0 <= i < j < |ids| :: ids[i] != ids[j]
  {
    if n > 0 {
      ConsultedAre(on, first, n - 1);
      forall id: nat ensures id in Consulted(on, first, n) <==> OnSome(on, first, n, id) {
        OnOneMore(on, first, n - 1, id);
        hide OnSome;
      }
    }
  }

  lemma CitedIs(table: seq<Calendar>, court: nat, day: Day, id: nat)
    requires InIdOrder(table)
    ensures OnId(LookupIn(AllNewestFirst(table, court)), day, id) <==> CitedFor(table, court, id, day)
  {
    CoveringGoverns(table, court, day);
    var c := Covering(AllNewestFirst(table, court), day);
    if c.Some? {
      forall o | Governs(table, court, o, day) ensures o == c.value { GoverningUnique(table, court, o, c.value, day); }
    }
  }

  /** The ids are, once each, those of the revisions that govern some day of the range. */
  ghost predicate Cites(ids: seq<nat>, table: seq<Calendar>, court: nat, first: Day, n: nat) {
    && (forall id: nat :: id in ids <==> exists d | first <= d < first + n :: CitedFor(table, court, id, d))
    && forall i, j | 0 <= i < j < |ids| :: ids[i] != ids[j]
  }

  lemma ConsultedCites(table: seq<Calendar>, court: nat, first: Day, n: nat)
    requires InIdOrder(table)
    ensures Cites(Consulted(LookupIn(AllNewestFirst(table, court)), first, n), table, court, first, n)
  {
    var on := LookupIn(AllNewestFirst(table, court));
    ConsultedAre(on, first, n);
    forall d: Day, id: nat ensures OnId(on, d, id) <==> CitedFor(table, court, id, d) { CitedIs(table, court, d, id); }
    hide Consulted, CitedFor, OnId, InIdOrder;
  }

  lemma SkipsGiven(table: seq<Calendar>, court: nat, zone: Zone, first: Day, n: nat)
    requires InIdOrder(table) && forall d | first <= d < first + n :: Shut(LookupIn(AllNewestFirst(table, court)), zone, d)
    ensures var skipped := Skipped(LookupIn(AllNewestFirst(table, court)), first, n);
            forall d | d in skipped :: ReasonGiven(table, court, d, skipped[d])
  {
    var on := LookupIn(AllNewestFirst(table, court));
    forall d | first <= d < first + n ensures ReasonGiven(table, court, d, SkipReason(on, d)) {
      assert Shut(on, zone, d);
      CoveringGoverns(table, court, d);
    }
  }

  lemma ReportCites(table: seq<Calendar>, court: nat, zone: Zone, first: Day, limit: nat)
    requires InIdOrder(table)
    ensures var a := Report(LookupIn(AllNewestFirst(table, court)), zone, first, limit);
            && a.localReceived == Some(first) && (forall d | d in a.skipped :: ReasonGiven(table, court, d, a.skipped[d]))
            && (a.filingDate.Some? ==> a.filingDate.value >= first && Cites(a.calendarIds, table, court, first, a.filingDate.value - first + 1))
  {
    hide *;
    var on := LookupIn(AllNewestFirst(table, court));
    var n := ShutRun(on, zone, first, limit);
    ConsultedCites(table, court, first, n + 1);
    SkipsGiven(table, court, zone, first, n);
    ReportParts(on, zone, first, limit);
  }

  lemma ReportParts(on: Lookup, zone: Zone, first: Day, limit: nat)
    ensures var a, n := Report(on, zone, first, limit), ShutRun(on, zone, first, limit);
            && a.localReceived == Some(first) && a.skipped == Skipped(on, first, n)
            && (a.filingDate.Some? ==> a.filingDate.value == first + n && a.calendarIds == Consulted(on, first, n + 1))
  {
    hide ShutRun, Skipped, Consulted;
  }

  /**
   An assessment explains itself: it cites, once each, exactly the revisions that govern the days it
   searched, and gives each skipped day the reason its governing revision gives.
   */
  lemma AssessmentCites(table: seq<Calendar>, court: nat, local: Zone -> Day, limit: nat)
    requires InIdOrder(table) && Initial(AllNewestFirst(table, court), local).Some?
    ensures var a := Assess(AllNewestFirst(table, court), local, limit);
            && a.localReceived.Some? && (forall d | d in a.skipped :: ReasonGiven(table, court, d, a.skipped[d]))
            && (a.filingDate.Some? ==> a.filingDate.value >= a.localReceived.value
                                       && Cites(a.calendarIds, table, court, a.localReceived.value, a.filingDate.value - a.localReceived.value + 1))
  {
    hide InIdOrder, Report, Cites, ReasonGiven, AllNewestFirst, Initial;
    var zone := Initial(AllNewestFirst(table, court), local).value.timezone;
    ReportCites(table, court, zone, local(zone), limit);
  }
}
