/** What each request about drafts, documents, submission and publication needs, and what it changes and leaves alone. */
module FilingEffects {
  import opened Common
  import opened Filings
  import opened FilingInvariants
  import opened FilingSteps
  import opened FilingRequests
  import opened FilingRuns
  import opened FilingGuarantees
  import opened FilingDecisions
  import CourtCalendars

  /** Every filing but one, every payment, case, copy and history row is as it was. */
  ghost predicate OnlyFiling(s: State, t: State, f: nat) {
    && f < |s.envelopes| == |t.envelopes| && (forall g | 0 <= g < |s.envelopes| && g != f :: t.envelopes[g] == s.envelopes[g])
    && t.payments == s.payments && t.cases == s.cases && t.copies == s.copies && t.txs == s.txs && t.reviews == s.reviews && t.calendars == s.calendars
  }

  // ---------------------------------------------------------------- drafts

  /** A filer may file there: the court's own case type, enabled and active, in an existing case of that court and type as a participant, or in none to open one. */
  predicate Suits(s: State, data: NewFiling, place: Option<Place>, participant: bool) {
    && place.Some? && place.value.typeCourt == data.court && place.value.enabled && place.value.active
    && (data.filingType.Initial? <==> data.case_.None?)
    && (data.case_.Some? ==> participant && data.case_.value < |s.cases| && s.cases[data.case_.value].court == data.court
                             && s.cases[data.case_.value].caseType == data.caseType)
  }

  /** A new draft is created exactly for someone who may file, under an unused key, for a suitable place. */
  lemma CreatedIff(s: State, actor: Actor, key: Key, data: NewFiling, place: Option<Place>, participant: bool)
    ensures CreateFiling(s, actor, key, data, place, participant).1 == Ok <==>
              && actor.mayFile && Suits(s, data, place, participant)
              && (forall f | 0 <= f < |s.envelopes| :: !(s.envelopes[f].filer == actor.id && s.envelopes[f].creationKey == key))
  {
    hide FindCreation;
  }

  /** It is an empty draft of the actor's with the details asked for, under its case's title if it has one. */
  lemma CreatedDraft(s: State, actor: Actor, key: Key, data: NewFiling, place: Option<Place>, participant: bool)
    requires CreateFiling(s, actor, key, data, place, participant).1 == Ok
    ensures var t := CreateFiling(s, actor, key, data, place, participant).0;
            && |t.envelopes| == |s.envelopes| + 1 && t.envelopes[..|s.envelopes|] == s.envelopes && t.(envelopes := s.envelopes) == s
            && var e := t.envelopes[|s.envelopes|];
               && e.status == Draft && e.filer == actor.id && e.creationKey == key && e.creation == data && e.submissions == 0
               && e.court == data.court && e.caseType == data.caseType && e.filingType == data.filingType && e.case_ == data.case_
               && e.details.description == data.details.description && e.details.waiverRequested == data.details.waiverRequested
               && e.details.waiverReason == data.details.waiverReason && e.waiverGranted.None? && e.payment.None?
               && e.details.title == (if data.case_.Some? then Some(s.cases[data.case_.value].title) else data.details.title)
  {
    hide FindCreation;
  }

  /** An edit goes through exactly for the filer of an editable filing who names what they saw, leaving alone the waiver answers once submitted and the title of a case. */
  lemma EditedIff(s: State, actor: Actor, f: nat, edit: Edit)
    requires f < |s.envelopes| && edit.token.Some?
    ensures UpdateDetails(s, actor, f, edit).1 == Ok <==>
              var e := s.envelopes[f];
              && actor.mayFile && actor.id == e.filer && edit.token == Some(TokenOf(s, f)) && e.status in {Draft, Returned}
              && (e.submittedAt.Some? ==> (edit.waiver.Some? ==> edit.waiver.value == e.details.waiverRequested)
                                          && (edit.waiverReason.Some? ==> edit.waiverReason == e.details.waiverReason))
              && (e.case_.Some? && edit.title.Some? ==> edit.title == e.details.title)
  {
  }

  /** What was given replaces, what was not given stays, and asking for a waiver withdraws an open fee review. */
  lemma EditedDetails(s: State, actor: Actor, f: nat, edit: Edit)
    requires UpdateDetails(s, actor, f, edit).1 == Ok
    ensures var t := UpdateDetails(s, actor, f, edit).0;
            && OnlyFiling(s, t, f) && t.docs == s.docs && t.uploads == s.uploads
            && var was, now := s.envelopes[f].details, t.envelopes[f].details;
               && (edit.title.Some? ==> now.title == edit.title) && (edit.title.None? ==> now.title == was.title)
               && (edit.description.Some? ==> now.description == edit.description) && (edit.description.None? ==> now.description == was.description)
               && (edit.waiver.Some? ==> now.waiverRequested == edit.waiver.value) && (edit.waiver.None? ==> now.waiverRequested == was.waiverRequested)
               && (edit.waiverReason.Some? ==> now.waiverReason == edit.waiverReason) && (edit.waiverReason.None? ==> now.waiverReason == was.waiverReason)
               && (edit.waiver == Some(true) ==> t.envelopes[f].feeReviewAt.None?)
               && (edit.waiver != Some(true) ==> t.envelopes[f].feeReviewAt == s.envelopes[f].feeReviewAt)
               && t.envelopes[f].(details := was, feeReviewAt := s.envelopes[f].feeReviewAt) == s.envelopes[f]
  {
  }

  // ---------------------------------------------------------------- documents

  /** A first upload goes through exactly for the filer of an editable filing, and never as a court's own order. */
  lemma UploadedIff(s: State, actor: Actor, f: nat, key: Key, objectKey: string, file: File, filename: string, confidential: bool, now: Time)
    requires f < |s.envelopes| && (f, key) !in s.uploads
    ensures UploadDocument(s, actor, f, key, objectKey, file, filename, confidential, now).1 == Ok <==>
              && actor.mayFile && actor.id == s.envelopes[f].filer && s.envelopes[f].status in {Draft, Returned}
              && !file.docType.FeeWaiverOrder? && !file.docType.FilingDateOrder?
  {
  }

  /** The new document is the last of the current ones, as uploaded, and restricted if asked for or if it is waiver material. */
  lemma UploadedDocument(s: State, actor: Actor, f: nat, key: Key, objectKey: string, file: File, filename: string, confidential: bool, now: Time)
    requires DocsOk(s) && UploadDocument(s, actor, f, key, objectKey, file, filename, confidential, now).1 == Ok
    ensures var t, id := UploadDocument(s, actor, f, key, objectKey, file, filename, confidential, now).0, s.nextDoc;
            && OnlyFiling(s, t, f) && t.docs.Keys == s.docs.Keys + {id} && id !in s.docs && (forall o | o in s.docs :: t.docs[o] == s.docs[o])
            && t.docs[id].envelope == f && t.docs[id].key == objectKey && t.docs[id].file == file && t.docs[id].uploadedAt == now
            && (t.docs[id].confidential <==> confidential || file.docType.FeeWaiver?)
            && t.docs[id].retainedAt.None? && t.docs[id].removedAt.None? && t.docs[id].publicCopy.None?
            && CurrentOf(t, f) == CurrentOf(s, f) + [id]
            && t.envelopes[f].feeVersion == s.envelopes[f].feeVersion + 1 && t.envelopes[f].status == s.envelopes[f].status
  {
    var t := UploadDocument(s, actor, f, key, objectKey, file, filename, confidential, now).0;
    NoneAhead(s);
    SameCurrent(s.docs, t.docs, f, s.nextDoc);
  }

  /** A removal goes through exactly for the filer of an editable filing, of one of its current documents. */
  lemma RemovedIff(s: State, actor: Actor, f: nat, id: nat, now: Time)
    requires f < |s.envelopes|
    ensures RemoveDocument(s, actor, f, id, now).1 == Ok <==>
              && actor.mayFile && actor.id == s.envelopes[f].filer && s.envelopes[f].status in {Draft, Returned}
              && id in s.docs && s.docs[id].envelope == f && s.docs[id].removedAt.None?
              && !s.docs[id].file.docType.FeeWaiverOrder? && !s.docs[id].file.docType.FilingDateOrder?
  {
  }

  /** The document leaves the current ones; its row is deleted exactly when it was never retained and the filing never submitted. */
  lemma RemovedDocument(s: State, actor: Actor, f: nat, id: nat, now: Time)
    requires RemoveDocument(s, actor, f, id, now).1 == Ok
    ensures var t := RemoveDocument(s, actor, f, id, now).0;
            && OnlyFiling(s, t, f) && id in s.docs && t.nextDoc == s.nextDoc
            && (forall o | o != id :: (o in t.docs <==> o in s.docs) && (o in s.docs ==> t.docs[o] == s.docs[o]))
            && (forall o :: IsCurrent(t.docs, f, o) <==> IsCurrent(s.docs, f, o) && o != id)
            && (id !in t.docs <==> s.docs[id].retainedAt.None? && s.envelopes[f].submittedAt.None?)
            && (id in t.docs ==> t.docs[id] == s.docs[id].(removedAt := Some(now)))
            && t.envelopes[f] == s.envelopes[f].(feeVersion := s.envelopes[f].feeVersion + 1)
  {
    hide Forget;
  }

  // ---------------------------------------------------------------- waiver material stays restricted

  ghost predicate PrivateKept(s: State) {
    forall id | id in s.docs :: s.docs[id].file.docType.FeeWaiver? || s.docs[id].file.docType.FeeWaiverOrder? ==> s.docs[id].confidential
  }

  /** Documents that stay only grow more restricted, so only a new one has to be looked at. */
  lemma PrivateGrows(s: State, t: State)
    requires PrivateKept(s) && DocsGrow(s, t.docs, t.nextDoc) && t.nextDoc <= s.nextDoc + 1 && DocsOk(t)
    requires s.nextDoc in t.docs && PrivateType(t.docs[s.nextDoc].file.docType) ==> t.docs[s.nextDoc].confidential
    ensures PrivateKept(t)
  {
    forall id | id in t.docs && PrivateType(t.docs[id].file.docType) ensures t.docs[id].confidential {
      assert DocOk(t, id);
      if id < s.nextDoc { assert DocGrows(s.docs[id], t.docs[id]); }
    }
  }

  /** The rows a request adds: at most one, and restricted if it is waiver material. */
  lemma NewDocument(cfg: Config, s: State, q: Request)
    requires Possible(s, q) && (q.PutDocument? || q.Waive? || q.OrderDate?)
    ensures var t := Apply(cfg, s, q).0;
            && t.nextDoc <= s.nextDoc + 1 && (t.nextDoc == s.nextDoc ==> t.docs == s.docs)
            && (t.nextDoc == s.nextDoc + 1 ==> s.nextDoc in t.docs && (PrivateType(t.docs[s.nextDoc].file.docType) ==> t.docs[s.nextDoc].confidential))
  {
  }

  lemma NoNewDocument(cfg: Config, s: State, q: Request)
    requires Possible(s, q) && !q.PutDocument? && !q.Waive? && !q.OrderDate? && !q.Submit? && !q.Record?
    ensures Apply(cfg, s, q).0.nextDoc == s.nextDoc
  {
    hide Retain, Current, Fees, AssessmentOf, VerifyReview, DestinationError, Forget, CreditError, FindCredit, FindCreation, Manifest;
  }

  lemma NoNewDocumentOnReview(cfg: Config, s: State, q: Request)
    requires Possible(s, q) && (q.Submit? || q.Record?)
    ensures Apply(cfg, s, q).0.nextDoc == s.nextDoc
  {
    hide Fees, SubmissionTokenOf, Complete, Retain, Current, KeyUsed, DestinationError, LockedPrints;
  }

  lemma PrivateStep(cfg: Config, s: State, q: Request)
    requires Inv(s) && Possible(s, q) && PrivateKept(s)
    ensures PrivateKept(Apply(cfg, s, q).0)
  {
    hide Inv, Apply, PrivateKept;
    var t := Apply(cfg, s, q).0;
    RequestKeeps(cfg, s, q);
    InvDocs(t);
    InvDocs(s);
    if q.PutDocument? || q.Waive? || q.OrderDate? {
      NewDocument(cfg, s, q);
    } else if q.Submit? || q.Record? {
      NoNewDocumentOnReview(cfg, s, q);
    } else {
      NoNewDocument(cfg, s, q);
    }
    NoneAhead(s);
    NoneAhead(t);
    hide DocsOk, DocsGrow;
    PrivateGrows(s, t);
  }

  lemma NoneAhead(s: State)
    requires DocsOk(s)
    ensures forall id | id in s.docs :: id < s.nextDoc
  {
    forall id | id in s.docs ensures id < s.nextDoc { assert DocOk(s, id); }
  }

  /** In every reachable state waiver material and waiver orders are restricted. */
  lemma {:induction false} WaiverMaterialRestricted(cfg: Config, r: seq<State>, x: nat)
    requires Run(cfg, r) && x < |r|
    ensures PrivateKept(r[x])
  {
    hide Inv, Apply;
    if x > 0 {
      WaiverMaterialRestricted(cfg, r, x - 1);
      RunInv(cfg, r, x - 1);
      assert Step(cfg, r[x - 1], r[x - 1 + 1]);
      var q :| Possible(r[x - 1], q) && r[x] == Apply(cfg, r[x - 1], q).0;
      PrivateStep(cfg, r[x - 1], q);
    }
  }

  // ---------------------------------------------------------------- submission

  /** The draft lists something, a requested waiver's application is among it, and it is in a case or names one to open. */
  ghost predicate Ready(s: State, f: nat, required: bool)
    requires f < |s.envelopes|
  {
    var e := s.envelopes[f];
    && (exists id :: IsCurrent(s.docs, f, id))
    && (e.details.waiverRequested && e.waiverGranted.None? ==> exists id :: IsCurrent(s.docs, f, id) && s.docs[id].file.docType.FeeWaiver?)
    && (e.filingType.ServiceOnly? ==> e.case_.Some?)
    && (!e.filingType.ServiceOnly? ==> required && (e.case_.None? ==> e.details.title.Some? && e.details.title.value != ""))
  }

  lemma CompleteIffReady(s: State, f: nat, required: bool)
    requires f < |s.envelopes| && DocsOk(s)
    ensures Complete(s, f, required) <==> Ready(s, f, required)
  {
    var ids := CurrentOf(s, f);
    CurrentAre(s.docs, f, s.nextDoc);
    NoneAhead(s);
    hide Current, DocsOk;
    assert forall id :: id in ids <==> IsCurrent(s.docs, f, id);
    if ids != [] { assert IsCurrent(s.docs, f, ids[0]); }
  }

  /** Where the filing would go still suits it. */
  predicate StillSuits(s: State, e: Envelope, place: Option<Place>, participant: bool) {
    && place.Some? && place.value.typeCourt == e.court && place.value.enabled && place.value.active
    && (e.filingType.Initial? <==> e.case_.None?)
    && (e.case_.Some? ==> participant && e.case_.value < |s.cases| && s.cases[e.case_.value].court == e.court && s.cases[e.case_.value].caseType == e.caseType)
  }

  /** The unlocked half passes exactly for the filer of an editable, paid or waived, complete filing seen as it is, whose files are all intact. */
  lemma SubmissionReadyIff(cfg: Config, s: State, actor: Actor, f: nat, key: Option<Key>, token: SubmissionToken, place: Option<Place>,
                           participant: bool, required: bool, storage: Storage)
    requires f < |s.envelopes| && DocsOk(s) && !KeyUsed(s.txs, f, key)
    ensures SubmitProbe(cfg, s, actor, f, key, token, place, participant, required, storage).0 == Ok <==>
              var e := s.envelopes[f];
              && actor.mayFile && actor.id == e.filer && token == SubmissionTokenOf(s, f) && e.status in {Draft, Returned}
              && Fees(cfg, s, f).obligationMet && Ready(s, f, required) && StillSuits(s, e, place, participant)
              && (forall id | IsCurrent(s.docs, f, id) :: s.docs[id].key in storage && storage[s.docs[id].key] == (s.docs[id].file.sha, s.docs[id].file.size))
  {
    CompleteIffReady(s, f, required);
    CurrentAre(s.docs, f, s.nextDoc);
    NoneAhead(s);
    hide Fees, SubmissionTokenOf, Complete, Ready, Current, KeyUsed, DocsOk;
    if Complete(s, f, required) { CompleteLists(s, f, required); }
  }

  lemma CompleteLists(s: State, f: nat, required: bool)
    requires f < |s.envelopes| && Complete(s, f, required)
    ensures CurrentOf(s, f) != []
  {
    hide Current;
  }

  /** The receipt a submission writes, and what it counts. */
  lemma ReceiptWritten(cfg: Config, s: State, q: Request)
    requires q.Submit? && Apply(cfg, s, q).1 == Ok
    ensures q.f < |s.envelopes| && Stored(s.docs, CurrentOf(s, q.f)) && q.token == SubmissionTokenOf(s, q.f)
    ensures var t := Apply(cfg, s, q).0;
            && |t.txs| == |s.txs| + 1 && q.f < |t.envelopes| && t.envelopes[q.f].submissions == s.envelopes[q.f].submissions + 1
            && var row := t.txs[|s.txs|];
               && row.filing == q.f && row.at == q.now && row.key == q.submitKey && row.submission == t.envelopes[q.f].submissions && row.event.Receipt?
               && row.event.documents == Manifest(s.docs, CurrentOf(s, q.f)) && row.event.case_ == s.envelopes[q.f].case_ && row.event.fees == Fees(cfg, s, q.f)
  {
    CurrentAre(s.docs, q.f, s.nextDoc);
    hide Fees, SubmissionTokenOf, Complete, Retain, Current, KeyUsed, DestinationError;
  }

  lemma TokensPin(s: State, t: State, f: nat)
    requires f < |s.envelopes| && f < |t.envelopes| && SubmissionTokenOf(s, f) == SubmissionTokenOf(t, f)
    requires Stored(s.docs, CurrentOf(s, f)) && Stored(t.docs, CurrentOf(t, f))
    ensures Manifest(s.docs, CurrentOf(s, f)) == Manifest(t.docs, CurrentOf(t, f))
    ensures var a, b := s.envelopes[f], t.envelopes[f];
            && a.status == b.status && a.submissions == b.submissions && a.details == b.details
            && a.court == b.court && a.case_ == b.case_ && a.caseType == b.caseType && a.filingType == b.filingType
            && a.feeVersion == b.feeVersion && a.payment == b.payment && a.paymentVersion == b.paymentVersion
            && a.waiverGranted == b.waiverGranted && a.waiverDue == b.waiverDue
  {
  }

  /** What is submitted is what was shown: whatever ran since the review page was read, the receipt lists the documents then shown, for the details, place and fee then shown. */
  lemma SubmitsWhatWasShown(cfg: Config, s: State, t: State, q: Request)
    requires q.Submit? && q.f < |s.envelopes| && q.token == SubmissionTokenOf(s, q.f) && Apply(cfg, t, q).1 == Ok
    ensures Stored(s.docs, CurrentOf(s, q.f)) && q.f < |t.envelopes|
    ensures var u := Apply(cfg, t, q).0;
            && |u.txs| == |t.txs| + 1 && u.txs[|t.txs|].event.Receipt? && u.txs[|t.txs|].event.documents == Manifest(s.docs, CurrentOf(s, q.f))
            && u.txs[|t.txs|].event.case_ == s.envelopes[q.f].case_
    ensures var a, b := s.envelopes[q.f], t.envelopes[q.f];
            && a.details == b.details && a.court == b.court && a.caseType == b.caseType && a.feeVersion == b.feeVersion && a.paymentVersion == b.paymentVersion
            && a.waiverGranted == b.waiverGranted && a.waiverDue == b.waiverDue
  {
    ReceiptWritten(cfg, t, q);
    CurrentAre(s.docs, q.f, s.nextDoc);
    hide Apply, SubmissionTokenOf, Current;
    TokensPin(s, t, q.f);
  }

  /** An edit that goes through was made on the details it names. */
  lemma EditsWhatWasShown(s: State, t: State, actor: Actor, f: nat, edit: Edit)
    requires f < |s.envelopes| && edit.token == Some(TokenOf(s, f)) && UpdateDetails(t, actor, f, edit).1 == Ok
    ensures f < |t.envelopes| && t.envelopes[f].details == s.envelopes[f].details && t.envelopes[f].status == s.envelopes[f].status
    ensures t.envelopes[f].submissions == s.envelopes[f].submissions
  {
  }

  // ---------------------------------------------------------------- acceptance

  /** What an acceptance rests on when it goes through. */
  lemma AcceptChecked(cfg: Config, s: State, q: Request)
    requires q.Record? && q.evidence.action.Accept? && Possible(s, q) && Apply(cfg, s, q).1 == Ok
    ensures var ev, e := q.evidence, s.envelopes[q.evidence.filing];
            && e.court in q.actor.staffOf && e.filer != q.actor.id && e.status in {Submitted, UnderReview}
            && e.submissions == ev.count && e.dateVersion == ev.dateVersion && ev.prints == Some(LockedPrints(s, ev.filing, ev.ordered))
            && !e.filingType.ServiceOnly? && q.place.Some? && q.place.value.typeCourt == e.court
            && (e.case_.Some? ==> e.case_.value < |s.cases| && s.cases[e.case_.value].court == e.court && s.cases[e.case_.value].caseType == e.caseType)
  {
    hide LockedPrints, ReviewAssessment, Accepting;
  }

  /**
   An acceptance that goes through at r[j] on evidence gathered at r[i] commits what was verified:
   count, status and date never changed on the way, and every document it accepts is the very
   object that was read back from storage.
   */
  lemma AcceptedWasVerified(cfg: Config, r: seq<State>, i: nat, k: nat, j: nat, actor: Actor, count: nat, storage: Storage, q: Request)
    requires Run(cfg, r) && i < k <= j < |r| && q.Record? && q.evidence.action.Accept? && Possible(r[j], q) && Apply(cfg, r[j], q).1 == Ok
    requires VerifyReview(r[i], actor, q.evidence.filing, Accept, count, storage).1 == Some(q.evidence)
    requires r[i + 1] == ProbeReview(r[i], actor, q.evidence.filing, Accept, count, storage).0
    ensures var f := q.evidence.filing;
            && f < |r[i].envelopes| && f < |r[k].envelopes| && SameDate(r[i].envelopes[f], r[k].envelopes[f])
            && r[j].envelopes[f].submissions == count && HeldPrints(r[j], f) != [] && q.evidence.prints == Some(LockedPrints(r[j], f, q.evidence.ordered))
            && forall id | id in CurrentOf(r[j], f) :: id in r[j].docs && Intact(r[j].docs[id], storage)
  {
    hide Run, Apply, VerifyReview, ProbeReview, LockedPrints;
    AcceptChecked(cfg, r[j], q);
    AcceptanceCommitsVerified(cfg, r, i, k, j, actor, q.evidence.filing, count, storage, q.evidence);
  }

  /** A reject or a return goes through exactly for the court's staff other than the filer, at the count they saw, with a reason. */
  lemma DeclinedIff(cfg: Config, s: State, q: Request)
    requires q.Record? && !q.evidence.action.Accept? && Possible(s, q)
    ensures Apply(cfg, s, q).1 == Ok <==>
              var e := s.envelopes[q.evidence.filing];
              e.court in q.actor.staffOf && e.filer != q.actor.id && e.submissions == q.evidence.count && e.status in {Submitted, UnderReview} && q.reason != ""
  {
    hide ReviewAssessment;
  }

  // ---------------------------------------------------------------- copies and calendars

  /** A copy is prepared exactly by independent staff, for a current document of an accepted filing in a case that is not waiver material. */
  lemma PreparedIff(s: State, actor: Actor, id: nat, key: string, title: string, sha: Sha, size: nat)
    ensures var (t, reply) := PrepareCopy(s, actor, id, key, title, sha, size);
            && (reply == Ok <==>
                  && title != "" && id in s.docs && s.docs[id].envelope < |s.envelopes|
                  && var d, e := s.docs[id], s.envelopes[s.docs[id].envelope];
                     && e.court in actor.staffOf && e.filer != actor.id && e.status == Accepted && e.case_.Some?
                     && d.removedAt.None? && !d.file.docType.FeeWaiver? && !d.file.docType.FeeWaiverOrder?)
            && (reply == Ok ==> t == s.(copies := s.copies + [Copy(id, key, title, sha, size)]))
  {
  }

  /** A revision is published exactly by the court's administrators and judges, and says what they wrote. */
  lemma RevisionIff(s: State, actor: Actor, court: nat, zone: CourtCalendars.Zone, from: Day, through: Day, closed: map<Day, string>)
    ensures var (t, reply) := PublishCalendar(s, actor, court, zone, from, through, closed);
            && (reply == Ok <==> court in actor.administers || court in actor.judgeOf)
            && (reply == Ok ==>
                  && |t.calendars| == |s.calendars| + 1 && t.calendars[..|s.calendars|] == s.calendars && t.(calendars := s.calendars) == s
                  && var c := t.calendars[|s.calendars|];
                     c.id == |s.calendars| && c.court == court && c.timezone == zone && c.validFrom == from && c.validThrough == through && c.closed == closed)
  {
  }
}
