/** What each decision about a filing leaves behind, and how long it stands. */
module FilingDecisions {
  import opened Common
  import opened Filings
  import opened FilingInvariants
  import opened FilingSteps
  import opened FilingRequests
  import opened FilingRuns
  import opened FilingGuarantees
  import opened FilingHistory

  // ---------------------------------------------------------------- the latest decision is the status

  predicate SetsStatus(e: Event) {
    e.Receipt? || e.Decided? || e.CmsFailed?
  }

  /** From row `n` on no row of the filing sets its status. */
  ghost predicate Undisturbed(txs: seq<Tx>, f: nat, n: nat) {
    forall i | n <= i < |txs| :: txs[i].filing == f ==> !SetsStatus(txs[i].event)
  }

  lemma {:induction false} StatusReplayed(txs: seq<Tx>, f: nat, n: nat)
    requires n <= |txs| && Undisturbed(txs, f, n)
    ensures Replay(txs, f).status == Replay(txs[..n], f).status && Replay(txs, f).review == Replay(txs[..n], f).review
    ensures Replay(txs, f).cmsError == Replay(txs[..n], f).cmsError
  {
    if n == |txs| {
      assert txs[..n] == txs;
    } else {
      StatusReplayed(txs[..|txs| - 1], f, n);
      assert txs[..|txs| - 1][..n] == txs[..n];
    }
  }

  /** What a status-setting row says the filing is. */
  predicate Agrees(e: Envelope, row: Tx)
    requires SetsStatus(row.event)
  {
    match row.event
    case Decided(status, note) => e.status == status && e.review == Some(Review(row.actor, row.at, note))
    case CmsFailed(error) => e.status == UnderReview && e.cmsError == Some(error) && e.review == Some(Review(row.actor, row.at, None))
    case _ => e.status == (if row.event.service then Served else Submitted) && e.review.None? && e.cmsError.None?
  }

  /** In every reachable state the latest receipt, decision or failed transfer is the filing's status; without one it is a draft. */
  lemma LatestDecisionStands(cfg: Config, r: seq<State>, x: nat, f: nat, i: nat)
    requires Run(cfg, r) && x < |r| && f < |r[x].envelopes|
    ensures Undisturbed(r[x].txs, f, 0) ==> r[x].envelopes[f].status.Draft?
    ensures i < |r[x].txs| && r[x].txs[i].filing == f && SetsStatus(r[x].txs[i].event) && Undisturbed(r[x].txs, f, i + 1) ==>
              Agrees(r[x].envelopes[f], r[x].txs[i])
  {
    hide Run;
    HistoryTells(cfg, r, x);
    var txs := r[x].txs;
    if Undisturbed(txs, f, 0) {
      StatusReplayed(txs, f, 0);
      assert txs[..0] == [];
    }
    if i < |txs| && txs[i].filing == f && SetsStatus(txs[i].event) && Undisturbed(txs, f, i + 1) {
      StatusReplayed(txs, f, i + 1);
      assert txs[..i + 1][..i] == txs[..i];
    }
  }

  // ---------------------------------------------------------------- what a review records

  /** A declined filing: its new status, the row that says so, and nothing else in the tables. */
  ghost predicate Declined(s: State, t: State, q: Request, status: Status)
    requires q.Record?
  {
    var f := q.evidence.filing;
    && f < |s.envelopes| == |t.envelopes| && t.envelopes[f].status == status && t.docs == s.docs && t.cases == s.cases
    && t.txs == s.txs + [Tx(f, s.envelopes[f].submissions, Decided(status, Some(q.reason)), q.actor.id, q.now, None)]
  }

  lemma RejectRecorded(cfg: Config, s: State, q: Request)
    requires q.Record? && q.evidence.action.Reject? && Possible(s, q) && Apply(cfg, s, q).1 == Ok
    ensures Declined(s, Apply(cfg, s, q).0, q, Rejected) && Pending(s.envelopes[q.evidence.filing].status) && q.reason != ""
  {
  }

  lemma ReturnRecorded(cfg: Config, s: State, q: Request)
    requires q.Record? && q.evidence.action.Return? && Possible(s, q) && Apply(cfg, s, q).1 == Ok
    ensures Declined(s, Apply(cfg, s, q).0, q, Returned) && Pending(s.envelopes[q.evidence.filing].status) && q.reason != ""
  {
  }

  // ---------------------------------------------------------------- where a status can go

  /** Only a submission from an editable status and a review of a pending one change a status. */
  lemma StatusMoves(cfg: Config, s: State, q: Request, f: nat)
    requires Inv(s) && Possible(s, q) && f < |s.envelopes|
    ensures var t := Apply(cfg, s, q).0;
            f < |t.envelopes| && (t.envelopes[f].status == s.envelopes[f].status
              || (q.Submit? && q.f == f && Editable(s.envelopes[f].status) && t.envelopes[f].status == (if t.envelopes[f].filingType.ServiceOnly? then Served else Submitted)
                  && |t.txs| == |s.txs| + 1 && t.txs[|s.txs|].filing == f && t.txs[|s.txs|].event.Receipt?)
              || (q.Record? && q.evidence.filing == f && Pending(s.envelopes[f].status)))
  {
    if q.Submit? {
      hide Inv, Fees, SubmissionTokenOf, Complete, Retain, Current, KeyUsed, DestinationError;
    } else if q.Record? {
      hide Inv, LockedPrints, DestinationError;
    } else {
      hide Inv, Apply;
      if q.AskFeeReview? || q.Assess? || q.Waive? {
        BasisOfFees(cfg, s, q, f);
      } else if q.Pay? || q.Credit? || q.Reverse? {
        BasisOfPayments(cfg, s, q, f);
      } else if q.OrderDate? {
        OrderKeepsStatus(cfg, s, q, f);
      } else {
        BasisOfDocuments(cfg, s, q, f);
      }
    }
  }

  lemma OrderKeepsStatus(cfg: Config, s: State, q: Request, f: nat)
    requires q.OrderDate? && f < |s.envelopes|
    ensures var t := Apply(cfg, s, q).0; f < |t.envelopes| && t.envelopes[f].status == s.envelopes[f].status
  {
  }

  lemma {:induction false} ClosedStands(cfg: Config, r: seq<State>, i: nat, j: nat, f: nat)
    requires Run(cfg, r) && i <= j < |r| && f < |r[i].envelopes|
    requires !Editable(r[i].envelopes[f].status) && !Pending(r[i].envelopes[f].status)
    ensures f < |r[j].envelopes| && r[j].envelopes[f].status == r[i].envelopes[f].status
  {
    hide Inv, Apply;
    if i < j {
      ClosedStands(cfg, r, i, j - 1, f);
      RunInv(cfg, r, j - 1);
      assert Step(cfg, r[j - 1], r[j - 1 + 1]);
      var q :| Possible(r[j - 1], q) && r[j] == Apply(cfg, r[j - 1], q).0;
      StatusMoves(cfg, r[j - 1], q, f);
    }
  }

  /** The requests that would take a filing further: edits, documents, submission, review, fees and payments. */
  predicate TakesFurther(p: Request, f: nat) {
    || ((p.Update? || p.PutDocument? || p.DropDocument? || p.Submit? || p.Probe? || p.AskFeeReview? || p.Assess? || p.Waive? || p.Pay?) && p.f == f)
    || (p.Record? && p.evidence.filing == f)
    || (p.Credit? && p.credit.filing == f)
  }

  lemma RejectedRefuses(cfg: Config, s: State, p: Request, f: nat)
    requires Possible(s, p) && TakesFurther(p, f) && f < |s.envelopes| && s.envelopes[f].status.Rejected?
    ensures Apply(cfg, s, p).1 != Ok && Apply(cfg, s, p).0 == s
  {
    hide Fees, SubmissionTokenOf, Complete, KeyUsed, Current, FindCredit;
  }

  /**
   A rejection is final: in every later state the filing is Rejected and its reason stays in the
   history, and no edit, document, submission, review, fee decision or payment goes through.
   */
  lemma RejectionIsFinal(cfg: Config, r: seq<State>, i: nat, j: nat, q: Request, p: Request)
    requires Run(cfg, r) && i < j < |r| && q.Record? && q.evidence.action.Reject?
    requires Possible(r[i], q) && Apply(cfg, r[i], q) == (r[i + 1], Ok)
    requires Possible(r[j], p) && TakesFurther(p, q.evidence.filing)
    ensures var f := q.evidence.filing;
            && f < |r[i].envelopes| <= |r[j].envelopes| && r[j].envelopes[f].status == Rejected && |r[i].txs| < |r[j].txs|
            && r[j].txs[|r[i].txs|] == Tx(f, r[i].envelopes[f].submissions, Decided(Rejected, Some(q.reason)), q.actor.id, q.now, None)
    ensures Apply(cfg, r[j], p).1 != Ok && Apply(cfg, r[j], p).0 == r[j]
  {
    hide Run, Inv, Apply, TakesFurther;
    RejectRecorded(cfg, r[i], q);
    ClosedStands(cfg, r, i + 1, j, q.evidence.filing);
    RunGrows(cfg, r, i + 1, j);
    RejectedRefuses(cfg, r[j], p, q.evidence.filing);
  }

  // ---------------------------------------------------------------- a return reopens the filing

  ghost predicate ReceivedSince(txs: seq<Tx>, f: nat, n: nat) {
    exists i | n <= i < |txs| :: txs[i].filing == f && txs[i].event.Receipt?
  }

  lemma {:induction false} ReturnedStands(cfg: Config, r: seq<State>, i: nat, j: nat, f: nat)
    requires Run(cfg, r) && i <= j < |r| && f < |r[i].envelopes| && r[i].envelopes[f].status.Returned?
    ensures f < |r[j].envelopes| && (r[j].envelopes[f].status.Returned? || ReceivedSince(r[j].txs, f, |r[i].txs|))
  {
    hide Inv, Apply;
    if i < j {
      ReturnedStands(cfg, r, i, j - 1, f);
      RunInv(cfg, r, j - 1);
      RunGrows(cfg, r, i, j - 1);
      RunGrows(cfg, r, j - 1, j);
      assert Step(cfg, r[j - 1], r[j - 1 + 1]);
      var q :| Possible(r[j - 1], q) && r[j] == Apply(cfg, r[j - 1], q).0;
      StatusMoves(cfg, r[j - 1], q, f);
    }
  }

  /** An edit that names what it saw and keeps the waiver answers and an existing case's title. */
  predicate FreshEdit(s: State, f: nat, edit: Edit)
    requires f < |s.envelopes|
  {
    && edit.token == Some(TokenOf(s, f)) && edit.waiver.None? && edit.waiverReason.None?
    && (edit.title.None? || s.envelopes[f].case_.None?)
  }

  lemma ReturnedAdmits(cfg: Config, s: State, actor: Actor, f: nat, edit: Edit, p: Request)
    requires f < |s.envelopes| && s.envelopes[f].status.Returned? && actor.mayFile && actor.id == s.envelopes[f].filer
    ensures FreshEdit(s, f, edit) ==> Apply(cfg, s, Update(actor, f, edit)).1 == Ok
    ensures p.PutDocument? && p.actor == actor && p.f == f && (f, p.key) !in s.uploads && !CourtType(p.file.docType) ==> Apply(cfg, s, p).1 == Ok
    ensures p.DropDocument? && p.actor == actor && p.f == f && IsCurrent(s.docs, f, p.id) ==> Apply(cfg, s, p).1 == Ok
  {
  }

  /**
   A return reopens the filing: it is Returned until it is received again, its reason stays in the
   history, and its filer may edit it, add documents and remove them.
   */
  lemma ReturnReopens(cfg: Config, r: seq<State>, i: nat, j: nat, q: Request, actor: Actor, edit: Edit, p: Request)
    requires Run(cfg, r) && i < j < |r| && q.Record? && q.evidence.action.Return?
    requires Possible(r[i], q) && Apply(cfg, r[i], q) == (r[i + 1], Ok)
    requires !ReceivedSince(r[j].txs, q.evidence.filing, |r[i].txs|)
    ensures var f := q.evidence.filing;
            && f < |r[i].envelopes| <= |r[j].envelopes| && r[j].envelopes[f].status == Returned && |r[i].txs| < |r[j].txs|
            && r[j].txs[|r[i].txs|] == Tx(f, r[i].envelopes[f].submissions, Decided(Returned, Some(q.reason)), q.actor.id, q.now, None)
            && (actor.mayFile && actor.id == r[j].envelopes[f].filer ==>
                  && (FreshEdit(r[j], f, edit) ==> Apply(cfg, r[j], Update(actor, f, edit)).1 == Ok)
                  && (p.PutDocument? && p.actor == actor && p.f == f && (f, p.key) !in r[j].uploads && !CourtType(p.file.docType) ==> Apply(cfg, r[j], p).1 == Ok)
                  && (p.DropDocument? && p.actor == actor && p.f == f && IsCurrent(r[j].docs, f, p.id) ==> Apply(cfg, r[j], p).1 == Ok))
  {
    hide Run, Inv, Apply, FreshEdit;
    var f := q.evidence.filing;
    ReturnRecorded(cfg, r[i], q);
    ReturnedStands(cfg, r, i + 1, j, f);
    RunGrows(cfg, r, i + 1, j);
    if actor.mayFile && actor.id == r[j].envelopes[f].filer { ReturnedAdmits(cfg, r[j], actor, f, edit, p); }
  }

  // ---------------------------------------------------------------- an acceptance

  /** The case an acceptance puts the filing in: its own, or a new one opened from what was received. */
  ghost predicate InCase(s: State, t: State, f: nat)
    requires f < |s.envelopes| && f < |t.envelopes|
  {
    var was, e := s.envelopes[f], t.envelopes[f];
    && e.case_.Some?
    && (was.case_.Some? ==> e.case_ == was.case_ && t.cases == s.cases)
    && (was.case_.None? ==>
          && e.case_ == Some(|s.cases|) && |t.cases| == |s.cases| + 1 && t.cases[..|s.cases|] == s.cases
          && var c := t.cases[|s.cases|];
             && c.court == was.court && c.caseType == was.caseType && c.openedBy == f && c.filingDate == e.filingDate
             && (was.filedAt.Some? ==> c.filedAt == was.filedAt.value)
             && (was.details.title.Some? ==> c.title == was.details.title.value))
  }

  lemma AcceptRecorded(cfg: Config, s: State, q: Request)
    requires q.Record? && q.evidence.action.Accept? && Possible(s, q) && Apply(cfg, s, q).1 == Ok
    ensures var f, t := q.evidence.filing, Apply(cfg, s, q).0;
            && f < |s.envelopes| == |t.envelopes| && |s.txs| < |t.txs| <= |s.txs| + 2
            && var row := t.txs[|t.txs| - 1];
               && row.filing == f && row.actor == q.actor.id && row.at == q.now
               && (q.cms.CmsDone? ==> t.envelopes[f].status == Accepted && row.event == Decided(Accepted, None)
                                      && t.envelopes[f].cmsFiling == Some(q.cms.filing) && t.envelopes[f].case_.Some? && InCase(s, t, f))
               && (q.cms.CmsError? ==> t.envelopes[f].status == UnderReview && row.event == CmsFailed(q.cms.message)
                                       && t.envelopes[f].case_ == s.envelopes[f].case_ && t.cases == s.cases)
  {
    hide LockedPrints, ReviewAssessment;
  }

  /**
   An acceptance the case management system took is final and keeps its case; one it refused leaves
   the filing under review, in its case if it had one, to be decided again.
   */
  lemma AcceptanceStands(cfg: Config, r: seq<State>, i: nat, j: nat, q: Request)
    requires Run(cfg, r) && i < j < |r| && q.Record? && q.evidence.action.Accept?
    requires Possible(r[i], q) && Apply(cfg, r[i], q) == (r[i + 1], Ok)
    ensures var f := q.evidence.filing;
            && f < |r[i].envelopes| == |r[i + 1].envelopes| <= |r[j].envelopes|
            && (q.cms.CmsDone? ==> InCase(r[i], r[i + 1], f) && r[j].envelopes[f].status == Accepted
                                   && r[j].envelopes[f].case_ == r[i + 1].envelopes[f].case_)
            && (q.cms.CmsError? ==> r[i + 1].envelopes[f].status == UnderReview && r[i + 1].envelopes[f].cmsError == Some(q.cms.message)
                                    && r[i + 1].envelopes[f].case_ == r[i].envelopes[f].case_ && r[i + 1].cases == r[i].cases)
  {
    hide Run, Inv, Apply, InCase;
    var f := q.evidence.filing;
    AcceptRecorded(cfg, r[i], q);
    LatestDecisionStands(cfg, r, i + 1, f, |r[i + 1].txs| - 1);
    if q.cms.CmsDone? {
      ClosedStands(cfg, r, i + 1, j, f);
    }
    RunGrows(cfg, r, i + 1, j);
    assert EnvGrows(r[i + 1].envelopes[f], r[j].envelopes[f]);
  }

  // ---------------------------------------------------------------- a date order

  /** The order's own date is the filing's and, where the case is named too, the case's; the signed order is retained. */
  lemma OrderRecorded(cfg: Config, s: State, q: Request)
    requires q.OrderDate? && Apply(cfg, s, q).1 == Ok
    ensures var t, f, o := Apply(cfg, s, q).0, q.f, q.dateOrder;
            && f < |s.envelopes| == |t.envelopes| && q.actor.id != s.envelopes[f].filer
            && t.envelopes[f].filingDate == Some(o.date) && OrderedDate(t.envelopes[f])
            && t.envelopes[f].basis.value.date == o.date && t.envelopes[f].basis.value.signed == o.signed
            && OrderOf(t, f) == Some(s.nextDoc) && t.docs[s.nextDoc].key == q.objectKey && t.docs[s.nextDoc].file.sha == q.file.sha
            && (o.caseVersion.None? ==> t.cases == s.cases)
            && (o.caseVersion.Some? ==> s.envelopes[f].case_.Some? && s.envelopes[f].case_.value < |s.cases| == |t.cases|
                                        && t.cases[s.envelopes[f].case_.value].filingDate == Some(o.date))
            && (forall c | 0 <= c < |s.cases| && s.envelopes[f].case_ != Some(c) :: c < |t.cases| && t.cases[c] == s.cases[c])
            && |t.txs| == |s.txs| + 1 && t.txs[|s.txs|].event.DateOrdered? && t.txs[|s.txs|].event.previous == s.envelopes[f].filingDate
  {
  }

  /** The date a court ordered is the filing date through every later request until another order. */
  lemma DateOrderStands(cfg: Config, r: seq<State>, i: nat, j: nat, q: Request)
    requires Run(cfg, r) && i < j < |r| && q.OrderDate? && Apply(cfg, r[i], q) == (r[i + 1], Ok)
    requires !OrderedSince(r[j].txs, q.f, |r[i].txs| + 1)
    ensures q.f < |r[j].envelopes| && r[j].envelopes[q.f].filingDate == Some(q.dateOrder.date)
  {
    hide Run, Inv, Apply, OrderOf;
    OrderRecorded(cfg, r[i], q);
    OrderedDateSurvives(cfg, r, i + 1, j, q.f);
  }

  // ---------------------------------------------------------------- no acceptance without a date

  ghost predicate Dated(s: State, f: nat) {
    f < |s.envelopes| ==> s.envelopes[f].status.Accepted? ==> s.envelopes[f].filingDate.Some?
  }

  lemma AcceptDates(cfg: Config, s: State, q: Request)
    requires q.Record? && EvidenceOk(s, q.evidence) && DateOk(s, q.evidence.filing) && Possible(s, q) && !cfg.demo
    requires Dated(s, q.evidence.filing)
    ensures Dated(Apply(cfg, s, q).0, q.evidence.filing)
  {
    hide LockedPrints, ReviewAssessment, DestinationError;
  }

  lemma OrderDates(cfg: Config, s: State, q: Request, f: nat)
    requires q.OrderDate? && Dated(s, f)
    ensures Dated(Apply(cfg, s, q).0, f)
  {
  }

  /** A filing that was accepted before stays dated. */
  lemma AcceptedKeepsDate(cfg: Config, s: State, q: Request, f: nat)
    requires Inv(s) && Possible(s, q) && f < |s.envelopes| && !q.OrderDate? && !(q.Record? && q.evidence.filing == f) && Dated(s, f)
    ensures Dated(Apply(cfg, s, q).0, f)
  {
    hide Inv, Apply;
    var t := Apply(cfg, s, q).0;
    StatusMoves(cfg, s, q, f);
    RequestKeeps(cfg, s, q);
    DateAt(s, f);
    DateAt(t, f);
    if t.envelopes[f].status.Accepted? {
      if q.Submit? || q.Record? {
        SubmitElsewhere(cfg, s, q, f);
      } else if q.AskFeeReview? || q.Assess? || q.Waive? {
        BasisOfFees(cfg, s, q, f);
      } else if q.Pay? || q.Credit? || q.Reverse? {
        BasisOfPayments(cfg, s, q, f);
      } else {
        BasisOfDocuments(cfg, s, q, f);
      }
    }
  }

  lemma SubmitElsewhere(cfg: Config, s: State, q: Request, f: nat)
    requires Possible(s, q) && f < |s.envelopes| && s.envelopes[f].status.Accepted? && (q.Submit? || (q.Record? && q.evidence.filing != f))
    ensures var t := Apply(cfg, s, q).0; f < |t.envelopes| && t.envelopes[f] == s.envelopes[f]
  {
    hide Fees, SubmissionTokenOf, Complete, Retain, Current, KeyUsed, DestinationError, LockedPrints;
  }

  lemma DateAt(s: State, f: nat)
    requires Inv(s) && f < |s.envelopes|
    ensures DateOk(s, f)
  {
    InvEnv(s, f);
  }

  lemma DatedStep(cfg: Config, s: State, q: Request, f: nat)
    requires Inv(s) && Possible(s, q) && Dated(s, f) && !cfg.demo
    ensures Dated(Apply(cfg, s, q).0, f)
  {
    hide Inv, Apply;
    if q.OrderDate? {
      OrderDates(cfg, s, q, f);
    } else if f >= |s.envelopes| {
      NewIsDraft(cfg, s, q, f);
    } else if q.Record? && q.evidence.filing == f {
      EvidenceHolds(s, q.evidence);
      DateAt(s, f);
      hide DateOk, EvidenceOk;
      AcceptDates(cfg, s, q);
    } else {
      AcceptedKeepsDate(cfg, s, q, f);
    }
  }

  lemma NewIsDraft(cfg: Config, s: State, q: Request, f: nat)
    requires Inv(s) && Possible(s, q) && |s.envelopes| <= f
    ensures var t := Apply(cfg, s, q).0; f < |t.envelopes| ==> t.envelopes[f].status.Draft?
  {
    hide Inv;
    hide UpdateDetails, UploadDocument, RemoveDocument, SubmitFiling, ProbeReview, RecordReview, RequestFeeReview,
         AssessFees, DecideWaiver, RecordDateOrder, PrepareCopy, PublishCopy, WithholdDocument, ProcessPayment, RecordCredit, ReverseCredit;
  }

  /** Outside a demonstration every accepted filing has a filing date. */
  lemma AcceptedIsDated(cfg: Config, r: seq<State>, x: nat, f: nat)
    requires Run(cfg, r) && x < |r| && !cfg.demo && f < |r[x].envelopes| && r[x].envelopes[f].status.Accepted?
    ensures r[x].envelopes[f].filingDate.Some?
  {
    hide Run;
    DatedAt(cfg, r, x, f);
  }

  lemma {:induction false} DatedAt(cfg: Config, r: seq<State>, x: nat, f: nat)
    requires Run(cfg, r) && x < |r| && !cfg.demo
    ensures Dated(r[x], f)
  {
    hide Inv, Apply, Dated;
    if x > 0 {
      DatedAt(cfg, r, x - 1, f);
      RunInv(cfg, r, x - 1);
      assert Step(cfg, r[x - 1], r[x - 1 + 1]);
      var q :| Possible(r[x - 1], q) && r[x] == Apply(cfg, r[x - 1], q).0;
      DatedStep(cfg, r[x - 1], q, f);
    } else {
      EmptyDated(f);
    }
  }

  lemma EmptyDated(f: nat)
    ensures Dated(EMPTY, f)
  {
  }
}
