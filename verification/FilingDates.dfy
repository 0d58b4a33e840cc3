/** Filing dates over whole runs: every assessed date comes from the court's published calendars. */
module FilingDates {
  import opened Common
  import opened Filings
  import opened FilingInvariants
  import opened FilingSteps
  import opened FilingRequests
  import opened FilingRuns
  import opened FilingGuarantees
  import CourtCalendars

  type Assessment = CourtCalendars.Assessment

  /** The revisions published up to some moment assess the filing's receipt as its basis says. */
  ghost predicate AssessedUpTo(cfg: Config, s: State, f: nat, n: nat)
    requires f < |s.envelopes|
  {
    var e := s.envelopes[f];
    && n <= |s.calendars| && e.filedAt.Some? && e.basis.Some? && e.basis.value.Assessed?
    && e.basis.value.assessment == AssessmentBy(cfg, s.calendars[..n], e.court, e.filedAt.value)
  }

  /** An assessed basis is the assessment of the first receipt by the revisions of some moment. */
  ghost predicate DateAssessed(cfg: Config, s: State, f: nat)
    requires f < |s.envelopes|
  {
    s.envelopes[f].basis.Some? && s.envelopes[f].basis.value.Assessed? ==> exists n: nat :: AssessedUpTo(cfg, s, f, n)
  }

  lemma DateStays(cfg: Config, s: State, t: State, f: nat)
    requires f < |s.envelopes| && f < |t.envelopes| && DateAssessed(cfg, s, f) && s.calendars <= t.calendars
    requires t.envelopes[f].basis == s.envelopes[f].basis && t.envelopes[f].court == s.envelopes[f].court
    requires s.envelopes[f].filedAt.Some? ==> t.envelopes[f].filedAt == s.envelopes[f].filedAt
    ensures DateAssessed(cfg, t, f)
  {
    if s.envelopes[f].basis.Some? && s.envelopes[f].basis.value.Assessed? {
      var n: nat :| AssessedUpTo(cfg, s, f, n);
      assert t.calendars[..n] == s.calendars[..n];
      assert AssessedUpTo(cfg, t, f, n);
    }
  }

  lemma DateNow(cfg: Config, t: State, f: nat, at: Time)
    requires f < |t.envelopes| && t.envelopes[f].filedAt == Some(at)
    requires t.envelopes[f].basis == Some(Assessed(AssessmentBy(cfg, t.calendars, t.envelopes[f].court, at)))
    ensures DateAssessed(cfg, t, f)
  {
    assert t.calendars[..|t.calendars|] == t.calendars;
    assert AssessedUpTo(cfg, t, f, |t.calendars|);
  }

  /** A submission keeps the basis or assesses the first receipt by the revisions of now. */
  lemma SubmitBasis(cfg: Config, s: State, q: Request, f: nat)
    requires Possible(s, q) && q.Submit? && f < |s.envelopes|
    ensures var t := Apply(cfg, s, q).0;
            && f < |t.envelopes| && t.calendars == s.calendars && t.envelopes[f].court == s.envelopes[f].court
            && (t.envelopes[f].basis == s.envelopes[f].basis
                || (t.envelopes[f].filedAt.Some?
                    && t.envelopes[f].basis == Some(Assessed(AssessmentBy(cfg, t.calendars, t.envelopes[f].court, t.envelopes[f].filedAt.value)))))
  {
    hide Fees, Retain, Current, SubmitCheck, AssessmentBy;
    SubmitOwned(cfg, s, q);
  }

  /** So does a review, by the revisions of its own moment. */
  lemma AcceptingBasis(cfg: Config, s: State, ev: Evidence, actor: Actor, assessed: Assessment, cms: CmsResult, now: Time, f: nat)
    requires ev.filing < |s.envelopes| && OrElse(s.envelopes[ev.filing].filedAt, s.envelopes[ev.filing].submittedAt).Some? && f < |s.envelopes|
    ensures var t := Accepting(s, ev, actor, assessed, cms, now);
            && |t.envelopes| == |s.envelopes| && t.calendars == s.calendars && t.envelopes[f].court == s.envelopes[f].court
            && t.envelopes[f].filedAt == s.envelopes[f].filedAt
            && (t.envelopes[f].basis == s.envelopes[f].basis || (f == ev.filing && t.envelopes[f].basis == Some(Assessed(assessed))))
  {
  }

  /** So does a review, by the revisions of its own moment. */
  lemma ReviewBasis(cfg: Config, s: State, q: Request, f: nat)
    requires Possible(s, q) && q.Record? && f < |s.envelopes| && (s.envelopes[f].submittedAt.Some? ==> s.envelopes[f].filedAt.Some?)
    ensures var t := Apply(cfg, s, q).0;
            && f < |t.envelopes| && t.calendars == s.calendars && t.envelopes[f].court == s.envelopes[f].court
            && (t.envelopes[f].basis == s.envelopes[f].basis
                || (t.envelopes[f].filedAt.Some?
                    && t.envelopes[f].basis == Some(Assessed(AssessmentBy(cfg, t.calendars, t.envelopes[f].court, t.envelopes[f].filedAt.value)))))
  {
    hide LockedPrints, DestinationError, AssessmentBy, Accepting;
    var assessed := ReviewAssessment(cfg, s, q.evidence.filing);
    if AcceptError(cfg, s, q.evidence, q.place, assessed).None? {
      AcceptingBasis(cfg, s, q.evidence, q.actor, assessed, q.cms, q.now, f);
    }
  }

  lemma OrderBasis(cfg: Config, s: State, q: Request, f: nat)
    requires Possible(s, q) && q.OrderDate? && f < |s.envelopes|
    ensures var t := Apply(cfg, s, q).0;
            f < |t.envelopes| && (t.envelopes[f].basis == s.envelopes[f].basis || OrderedDate(t.envelopes[f]))
  {
  }

  lemma DateStep(cfg: Config, s: State, t: State, q: Request, f: nat)
    requires Inv(s) && Possible(s, q) && t == Apply(cfg, s, q).0 && f < |s.envelopes| && f < |t.envelopes| && DateAssessed(cfg, s, f)
    requires Grows(s, t) && (s.envelopes[f].filedAt.Some? ==> t.envelopes[f].filedAt == s.envelopes[f].filedAt)
    ensures DateAssessed(cfg, t, f)
  {
    assert EnvGrows(s.envelopes[f], t.envelopes[f]);
    InvEnv(s, f);
    assert Numbered(s.envelopes[f], Receipts(s.txs, f));
    hide Inv, Apply, DateAssessed, Grows, EnvOk, AssessmentBy;
    if q.Submit? {
      SubmitBasis(cfg, s, q, f);
    } else if q.Record? {
      ReviewBasis(cfg, s, q, f);
    } else if q.OrderDate? {
      OrderBasis(cfg, s, q, f);
    } else if q.AskFeeReview? || q.Assess? || q.Waive? {
      BasisOfFees(cfg, s, q, f);
    } else if q.Pay? || q.Credit? || q.Reverse? {
      BasisOfPayments(cfg, s, q, f);
    } else {
      BasisOfDocuments(cfg, s, q, f);
    }
    CalendarsGrow(s, t, f);
    if t.envelopes[f].basis == s.envelopes[f].basis {
      DateStays(cfg, s, t, f);
    } else if OrderedDate(t.envelopes[f]) {
      Ordered(cfg, t, f);
    } else {
      DateNow(cfg, t, f, t.envelopes[f].filedAt.value);
    }
  }

  lemma Ordered(cfg: Config, t: State, f: nat)
    requires f < |t.envelopes| && OrderedDate(t.envelopes[f])
    ensures DateAssessed(cfg, t, f)
  {
  }

  lemma CalendarsGrow(s: State, t: State, f: nat)
    requires Grows(s, t) && f < |s.envelopes|
    ensures s.calendars <= t.calendars && t.envelopes[f].court == s.envelopes[f].court
  {
    assert EnvGrows(s.envelopes[f], t.envelopes[f]);
  }

  /** Only creation adds a filing, and it has no date yet. */
  lemma NewFilingUndated(cfg: Config, s: State, q: Request, f: nat)
    requires Possible(s, q) && |s.envelopes| <= f < |Apply(cfg, s, q).0.envelopes|
    ensures DateAssessed(cfg, Apply(cfg, s, q).0, f)
  {
    hide UpdateDetails, UploadDocument, RemoveDocument, SubmitFiling, ProbeReview, RecordReview, RequestFeeReview,
         AssessFees, DecideWaiver, RecordDateOrder, PrepareCopy, PublishCopy, WithholdDocument, ProcessPayment, RecordCredit, ReverseCredit,
         PublishCalendar, SubmitAssessment, ReviewAssessment;
    assert q.Create?;
  }

  /** In every reachable state an assessed date is what the revisions published up to some moment say of the filing's first receipt. */
  lemma {:induction false} DatesFromCalendars(cfg: Config, r: seq<State>, x: nat, f: nat)
    requires Run(cfg, r) && x < |r| && f < |r[x].envelopes|
    ensures DateAssessed(cfg, r[x], f)
  {
    hide Inv, Apply, Grows, DateAssessed;
    if x > 0 {
      RunInv(cfg, r, x - 1);
      RunGrows(cfg, r, x - 1, x);
      assert Step(cfg, r[x - 1], r[x - 1 + 1]);
      var q :| Possible(r[x - 1], q) && r[x] == Apply(cfg, r[x - 1], q).0;
      if f < |r[x - 1].envelopes| {
        DatesFromCalendars(cfg, r, x - 1, f);
        FiledAtStays(cfg, r, x - 1, f);
        DateStep(cfg, r[x - 1], r[x], q, f);
      } else {
        NewFilingUndated(cfg, r[x - 1], q, f);
      }
    }
  }

  lemma FiledAtStays(cfg: Config, r: seq<State>, x: nat, f: nat)
    requires Run(cfg, r) && x + 1 < |r| && f < |r[x].envelopes| && f < |r[x + 1].envelopes|
    ensures r[x].envelopes[f].filedAt.Some? ==> r[x + 1].envelopes[f].filedAt == r[x].envelopes[f].filedAt
  {
    if r[x].envelopes[f].filedAt.Some? {
      RunInv(cfg, r, x);
      InvEnv(r[x], f);
      hide Inv;
      assert Numbered(r[x].envelopes[f], Receipts(r[x].txs, f));
      FiledAtFirstReceipt(cfg, r, x, x + 1, f);
    }
  }

  // ---------------------------------------------------------------- the earliest open day

  ghost predicate CalendarsNumbered(s: State) {
    forall i | 0 <= i < |s.calendars| :: s.calendars[i].id == i
  }

  lemma CalendarStep(cfg: Config, s: State, q: Request)
    requires Possible(s, q) && CalendarsNumbered(s)
    ensures CalendarsNumbered(Apply(cfg, s, q).0)
  {
    hide CreateFiling, UpdateDetails, UploadDocument, RemoveDocument, SubmitFiling, ProbeReview, RecordReview, RequestFeeReview,
         AssessFees, DecideWaiver, RecordDateOrder, PrepareCopy, PublishCopy, WithholdDocument, ProcessPayment, RecordCredit, ReverseCredit,
         SubmitAssessment, ReviewAssessment;
  }

  lemma {:induction false} RevisionsNumbered(cfg: Config, r: seq<State>, x: nat)
    requires Run(cfg, r) && x < |r|
    ensures CalendarsNumbered(r[x])
  {
    hide Apply;
    if x > 0 {
      RevisionsNumbered(cfg, r, x - 1);
      assert Step(cfg, r[x - 1], r[x - 1 + 1]);
      var q :| Possible(r[x - 1], q) && r[x] == Apply(cfg, r[x - 1], q).0;
      CalendarStep(cfg, r[x - 1], q);
    }
  }

  /**
   A filing date a reachable state records without a court order is the earliest day its court was
   open, from the local date of the first receipt on, under the newest revisions published by then;
   that local date's midnight is not after the receipt and the next one is.
   */
  lemma FiledOnEarliestOpenDay(cfg: Config, r: seq<State>, x: nat, f: nat) returns (n: nat)
    requires Run(cfg, r) && x < |r| && f < |r[x].envelopes|
    requires var e := r[x].envelopes[f]; e.filingDate.Some? && e.basis.Some? && e.basis.value.Assessed?
    ensures var s, e := r[x], r[x].envelopes[f];
            var a := e.basis.value.assessment;
            && n <= |s.calendars| && e.filedAt.Some? && a.filingDate == e.filingDate && a.timezone.Some?
            && a.localReceived.Some? && Midnight(a.localReceived.value, cfg.offsets(e.filedAt.value)(a.timezone.value)) <= e.filedAt.value
            && e.filedAt.value < Midnight(a.localReceived.value + 1, cfg.offsets(e.filedAt.value)(a.timezone.value))
            && CourtCalendars.FiledOnEarliest(s.calendars[..n], e.court, a.timezone.value, a.localReceived.value, CourtCalendars.SEARCH_LIMIT, a)
  {
    hide Inv, Run, CourtCalendars.Assess, CourtCalendars.FiledOnEarliest;
    var s, e := r[x], r[x].envelopes[f];
    DatesFromCalendars(cfg, r, x, f);
    RevisionsNumbered(cfg, r, x);
    RunInv(cfg, r, x);
    InvEnv(s, f);
    assert DateOk(s, f);
    n :| AssessedUpTo(cfg, s, f, n);
    EarliestOf(cfg, s, e.court, e.filedAt.value, n);
    CourtCalendars.LocalDateHolds(e.filedAt.value, cfg.offsets(e.filedAt.value), e.basis.value.assessment.timezone.value);
  }

  /** The instant a date starts where clocks are `offset` seconds ahead of UTC. */
  function Midnight(date: Day, offset: int): Time {
    86400 * date - offset
  }

  lemma EarliestOf(cfg: Config, s: State, court: nat, at: Time, n: nat)
    requires CalendarsNumbered(s) && n <= |s.calendars| && AssessmentBy(cfg, s.calendars[..n], court, at).filingDate.Some?
    ensures var a := AssessmentBy(cfg, s.calendars[..n], court, at);
            && a.timezone.Some? && a.localReceived == Some(CourtCalendars.LocalDays(at, cfg.offsets(at))(a.timezone.value))
            && CourtCalendars.FiledOnEarliest(s.calendars[..n], court, a.timezone.value, a.localReceived.value, CourtCalendars.SEARCH_LIMIT, a)
  {
    var table, local := s.calendars[..n], CourtCalendars.LocalDays(at, cfg.offsets(at));
    assert CourtCalendars.InIdOrder(table);
    CourtCalendars.AssessedDate(table, court, local, CourtCalendars.SEARCH_LIMIT);
  }
}
