/** The promises of the filing tables over whole runs. */
module FilingGuarantees {
  import opened Common
  import opened Filings
  import opened FilingInvariants
  import opened FilingSteps
  import opened FilingRequests
  import opened FilingRuns

  // ---------------------------------------------------------------- acceptance commits what was verified

  /** The evidence of an unlocked check at r[i], as it stands at r[j]. */
  lemma EvidenceStands(cfg: Config, r: seq<State>, i: nat, j: nat, actor: Actor, f: nat, count: nat, storage: Storage, ev: Evidence)
    requires Run(cfg, r) && i < j < |r|
    requires VerifyReview(r[i], actor, f, Accept, count, storage).1 == Some(ev)
    requires r[i + 1] == ProbeReview(r[i], actor, f, Accept, count, storage).0
    ensures EvidenceOk(r[j], ev) && f < |r[i].envelopes| && ev.filing == f && ev.dateVersion == r[i].envelopes[f].dateVersion
  {
    hide Inv, EvidenceOk;
    RunGrows(cfg, r, i + 1, j);
    RunInv(cfg, r, j);
    EvidenceHolds(r[j], ev);
  }

  /** Every document the evidence fingerprints was read back from storage with that digest and size. */
  lemma EvidenceRead(s: State, actor: Actor, f: nat, count: nat, storage: Storage, ev: Evidence)
    requires VerifyReview(s, actor, f, Accept, count, storage).1 == Some(ev)
    ensures ev.filing == f && f < |s.envelopes| && ev.prints.Some? && HeldPrints(s, f) != [] && HeldPrints(s, f) <= ev.prints.value
    ensures forall p | p in ev.prints.value :: p.id in s.docs && PrintOf(p.id, s.docs[p.id]) == p && Intact(s.docs[p.id], storage)
  {
    CurrentAre(s.docs, f, s.nextDoc);
    hide Current;
  }

  /**
   Acceptance commits exactly what was verified. Evidence gathered at r[i] is presented at any later
   r[j], whatever ran in between. If the date version still matches, the submission count and the
   pending status match too, the fingerprints under the lock are those read from storage, and the
   date basis never changed on the way.
   */
  lemma AcceptanceCommitsVerified(cfg: Config, r: seq<State>, i: nat, k: nat, j: nat, actor: Actor, f: nat, count: nat, storage: Storage, ev: Evidence)
    requires Run(cfg, r) && i < k <= j < |r|
    requires VerifyReview(r[i], actor, f, Accept, count, storage).1 == Some(ev)
    requires r[i + 1] == ProbeReview(r[i], actor, f, Accept, count, storage).0
    requires f < |r[j].envelopes| && r[j].envelopes[f].dateVersion == ev.dateVersion
    ensures f < |r[i].envelopes| && f < |r[k].envelopes| && SameDate(r[i].envelopes[f], r[k].envelopes[f])
    ensures r[j].envelopes[f].submissions == count && Pending(r[j].envelopes[f].status)
    ensures ev.prints == Some(LockedPrints(r[j], f, ev.ordered)) && HeldPrints(r[j], f) != []
    ensures forall id | id in CurrentOf(r[j], f) :: id in r[j].docs && Intact(r[j].docs[id], storage)
  {
    hide Run, VerifyReview, ProbeReview, LockedPrints;
    EvidenceStands(cfg, r, i, j, actor, f, count, storage, ev);
    EvidenceRead(r[i], actor, f, count, storage, ev);
    DateStands(cfg, r, i, k, j, f);
    DateStands(cfg, r, i, j, j, f);
    DocumentsStand(cfg, r, i, j, f);
    EvidenceCount(r[i], actor, f, count, storage, ev);
    RunGrows(cfg, r, i, j);
    RunInv(cfg, r, i);
    InvDocs(r[i]);
    StillIntact(r[i], r[j], ev, storage);
  }

  lemma EvidenceCount(s: State, actor: Actor, f: nat, count: nat, storage: Storage, ev: Evidence)
    requires VerifyReview(s, actor, f, Accept, count, storage).1 == Some(ev)
    ensures ev.count == count
  {
  }

  lemma StillIntact(s: State, t: State, ev: Evidence, storage: Storage)
    requires Grows(s, t) && DocsOk(s) && ev.filing < |t.envelopes| && ev.prints == Some(LockedPrints(t, ev.filing, ev.ordered))
    requires forall p | p in ev.prints.value :: p.id in s.docs && PrintOf(p.id, s.docs[p.id]) == p && Intact(s.docs[p.id], storage)
    ensures forall id | id in CurrentOf(t, ev.filing) :: id in t.docs && Intact(t.docs[id], storage)
  {
    CurrentAre(t.docs, ev.filing, t.nextDoc);
    hide Current;
    var ids := CurrentOf(t, ev.filing);
    forall n | 0 <= n < |ids| ensures Intact(t.docs[ids[n]], storage) {
      var p := LockedPrints(t, ev.filing, ev.ordered)[n];
      assert p in ev.prints.value && p.id == ids[n];
      assert DocOk(s, ids[n]);
    }
  }

  lemma SubmitShape(cfg: Config, s: State, q: Request)
    requires q.Submit? && SubmitFiling(cfg, s, q.actor, q.f, q.submitKey, q.token, q.place, q.participant, q.required, q.prints, SubmitAssessment(cfg, s, q.f, q.now), q.now).1 == Ok
    ensures var t := SubmitFiling(cfg, s, q.actor, q.f, q.submitKey, q.token, q.place, q.participant, q.required, q.prints, SubmitAssessment(cfg, s, q.f, q.now), q.now).0;
            && HeldPrints(s, q.f) == q.prints && |t.txs| == |s.txs| + 1 && t.txs[|s.txs|].event.Receipt?
            && EntryPrints(t.txs[|s.txs|].event.documents) == q.prints
  {
    hide SubmitCheck, Fees, Retain;
    CurrentAre(s.docs, q.f, s.nextDoc);
    ManifestPrints(s.docs, CurrentOf(s, q.f));
  }

  lemma PrintsStillIntact(s: State, t: State, f: nat, storage: Storage)
    requires Grows(s, t) && DocsOk(s) && HeldPrints(s, f) == HeldPrints(t, f)
    requires Stored(s.docs, CurrentOf(s, f)) && AllIntact(s.docs, CurrentOf(s, f), storage)
    ensures forall id | id in CurrentOf(t, f) :: id in t.docs && Intact(t.docs[id], storage)
  {
    CurrentAre(s.docs, f, s.nextDoc);
    CurrentAre(t.docs, f, t.nextDoc);
    hide Current;
    var ids, was := CurrentOf(t, f), CurrentOf(s, f);
    forall n | 0 <= n < |ids| ensures Intact(t.docs[ids[n]], storage) {
      assert HeldPrints(t, f)[n] == HeldPrints(s, f)[n];
      assert DocOk(s, was[n]);
    }
  }

  /**
   A submission commits what was verified: if the unlocked half passed at r[i] and the locked half
   at any later r[j], the receipt's fingerprints are those read back from storage, and every
   document it names is the very object that was read.
   */
  lemma SubmissionCommitsVerified(cfg: Config, r: seq<State>, i: nat, j: nat, q: Request, storage: Storage)
    requires Run(cfg, r) && i <= j < |r| && q.Submit?
    requires SubmitProbe(cfg, r[i], q.actor, q.f, q.submitKey, q.token, q.place, q.participant, q.required, storage) == (Ok, q.prints)
    requires SubmitFiling(cfg, r[j], q.actor, q.f, q.submitKey, q.token, q.place, q.participant, q.required, q.prints, SubmitAssessment(cfg, r[j], q.f, q.now), q.now).1 == Ok
    ensures var t := SubmitFiling(cfg, r[j], q.actor, q.f, q.submitKey, q.token, q.place, q.participant, q.required, q.prints, SubmitAssessment(cfg, r[j], q.f, q.now), q.now).0;
            && |t.txs| == |r[j].txs| + 1 && t.txs[|r[j].txs|].event.Receipt? && EntryPrints(t.txs[|r[j].txs|].event.documents) == q.prints
    ensures forall id | id in CurrentOf(r[j], q.f) :: id in r[j].docs && Intact(r[j].docs[id], storage)
  {
    hide Run, Inv, SubmitCheck, SubmitFiling, Grows, DocsOk;
    SubmitShape(cfg, r[j], q);
    RunGrows(cfg, r, i, j);
    RunInv(cfg, r, i);
    InvDocs(r[i]);
    CurrentAre(r[i].docs, q.f, r[i].nextDoc);
    PrintsStillIntact(r[i], r[j], q.f, storage);
  }

  // ---------------------------------------------------------------- a published copy was read back

  lemma PublishShape(s: State, actor: Actor, id: nat, copyId: nat, expected: nat, now: Time)
    requires PublishCopy(s, actor, id, copyId, expected, now).1 == Ok
    ensures id in s.docs && s.docs[id].accessVersion == expected && 0 < copyId <= |s.copies| && s.copies[copyId - 1].document == id
    ensures var t := PublishCopy(s, actor, id, copyId, expected, now).0;
            id in t.docs && t.docs[id].publicCopy == Some(copyId) && t.docs[id].confidential && t.copies == s.copies
  {
  }

  lemma PublishProbed(s: State, actor: Actor, id: nat, copyId: nat, expected: nat, storage: Storage)
    requires PublishProbe(s, actor, id, copyId, expected, storage) == Ok
    ensures id in s.docs && s.docs[id].accessVersion == expected && 0 < copyId <= |s.copies|
    ensures var c := s.copies[copyId - 1]; c.document == id && c.key in storage && storage[c.key] == (c.sha, c.size)
  {
  }

  /**
   A publication commits what was verified: if the unlocked half passed at r[i] and the locked half
   at any later r[j], the published copy is the row whose stored file was read back intact, and the
   document's access did not change in any state between.
   */
  lemma PublicationCommitsVerified(cfg: Config, r: seq<State>, i: nat, k: nat, j: nat, actor: Actor, id: nat, copyId: nat, expected: nat, storage: Storage, now: Time)
    requires Run(cfg, r) && i <= k <= j < |r|
    requires PublishProbe(r[i], actor, id, copyId, expected, storage) == Ok && PublishCopy(r[j], actor, id, copyId, expected, now).1 == Ok
    ensures var t := PublishCopy(r[j], actor, id, copyId, expected, now).0;
            && id in t.docs && t.docs[id].publicCopy == Some(copyId) && t.docs[id].confidential && 0 < copyId <= |t.copies|
            && var c := t.copies[copyId - 1]; c.document == id && c.key in storage && storage[c.key] == (c.sha, c.size)
    ensures id in r[i].docs && id in r[k].docs && id in r[j].docs
    ensures r[k].docs[id].confidential == r[i].docs[id].confidential && r[k].docs[id].publicCopy == r[i].docs[id].publicCopy
  {
    hide Run, Inv, PublishCopy, PublishProbe;
    PublishProbed(r[i], actor, id, copyId, expected, storage);
    PublishShape(r[j], actor, id, copyId, expected, now);
    RunGrows(cfg, r, i, k);
    RunGrows(cfg, r, k, j);
    RunInv(cfg, r, i);
    RunInv(cfg, r, j);
    InvDocs(r[i]);
    InvDocs(r[j]);
    AccessStands(r[i], r[k], r[j], id);
  }

  lemma AccessStands(s: State, t: State, u: State, id: nat)
    requires Grows(s, t) && Grows(t, u) && DocsOk(s) && id in s.docs && id in u.docs && s.docs[id].accessVersion == u.docs[id].accessVersion
    ensures id in t.docs && s.docs[id].confidential == t.docs[id].confidential && s.docs[id].publicCopy == t.docs[id].publicCopy
    ensures s.copies <= u.copies
  {
    assert DocOk(s, id);
    assert DocGrows(t.docs[id], u.docs[id]) && DocGrows(s.docs[id], t.docs[id]);
  }

  // ---------------------------------------------------------------- a court-ordered date survives

  /** Is a filing-date order among the rows from `n` on? */
  ghost predicate OrderedSince(txs: seq<Tx>, f: nat, n: nat) {
    exists i | n <= i < |txs| :: txs[i].filing == f && txs[i].event.DateOrdered?
  }

  /** The parts of a filing that decisions set. */
  predicate SameStanding(a: Envelope, b: Envelope) {
    a.basis == b.basis && a.status == b.status && a.waiverGranted == b.waiverGranted && a.waiverDue == b.waiverDue
  }

  lemma BasisOfDrafts(cfg: Config, s: State, q: Request, f: nat)
    requires Possible(s, q) && f < |s.envelopes| && (q.Create? || q.Update? || q.PutDocument? || q.DropDocument? || q.Probe? || q.NewCalendar?)
    ensures var t := Apply(cfg, s, q).0; f < |t.envelopes| && SameStanding(s.envelopes[f], t.envelopes[f])
  {
    hide VerifyReview, DestinationError, Forget, FindCreation;
  }

  lemma BasisOfCopies(cfg: Config, s: State, q: Request, f: nat)
    requires Possible(s, q) && f < |s.envelopes| && (q.Prepare? || q.Publish? || q.Withhold?)
    ensures var t := Apply(cfg, s, q).0; f < |t.envelopes| && SameStanding(s.envelopes[f], t.envelopes[f])
  {
  }

  /** Requests about drafts, documents and copies leave every date, status and waiver answer alone. */
  lemma BasisOfDocuments(cfg: Config, s: State, q: Request, f: nat)
    requires Possible(s, q) && f < |s.envelopes|
    requires q.Create? || q.Update? || q.PutDocument? || q.DropDocument? || q.Prepare? || q.Publish? || q.Withhold? || q.Probe? || q.NewCalendar?
    ensures var t := Apply(cfg, s, q).0; f < |t.envelopes| && SameStanding(s.envelopes[f], t.envelopes[f])
  {
    hide Apply;
    if q.Prepare? || q.Publish? || q.Withhold? { BasisOfCopies(cfg, s, q, f); } else { BasisOfDrafts(cfg, s, q, f); }
  }

  /** So do fee decisions. */
  lemma BasisOfFees(cfg: Config, s: State, q: Request, f: nat)
    requires Possible(s, q) && f < |s.envelopes| && (q.AskFeeReview? || q.Assess? || q.Waive?)
    ensures var t := Apply(cfg, s, q).0; f < |t.envelopes| && t.envelopes[f].basis == s.envelopes[f].basis && t.envelopes[f].status == s.envelopes[f].status
  {
    hide Retain, Current, AssessmentOf;
  }

  /** So do payments. */
  lemma BasisOfPayments(cfg: Config, s: State, q: Request, f: nat)
    requires Possible(s, q) && f < |s.envelopes| && (q.Pay? || q.Credit? || q.Reverse?)
    ensures var t := Apply(cfg, s, q).0; f < |t.envelopes| && SameStanding(s.envelopes[f], t.envelopes[f])
  {
    hide Fees, CreditError, FindCredit;
  }

  lemma OrderSurvivesSubmit(cfg: Config, s: State, q: Request, f: nat)
    requires Possible(s, q) && q.Submit? && f < |s.envelopes| && OrderedDate(s.envelopes[f]) && s.envelopes[f].filingDate.Some?
    ensures var t := Apply(cfg, s, q).0; f < |t.envelopes| && t.envelopes[f].basis == s.envelopes[f].basis
  {
    hide Fees, Retain, Current, SubmitCheck;
    SubmitOwned(cfg, s, q);
  }

  lemma SubmitOwned(cfg: Config, s: State, q: Request)
    requires q.Submit?
    ensures SubmitCheck(cfg, s, q.actor, q.f, q.submitKey, q.token, q.place, q.participant, q.required) == Ok ==> q.f < |s.envelopes|
  {
  }

  lemma OrderSurvivesReview(cfg: Config, s: State, q: Request, f: nat)
    requires Possible(s, q) && q.Record? && EvidenceOk(s, q.evidence) && f < |s.envelopes| && OrderedDate(s.envelopes[f])
    ensures var t := Apply(cfg, s, q).0; f < |t.envelopes| && t.envelopes[f].basis == s.envelopes[f].basis
  {
    hide LockedPrints, DestinationError;
  }

  lemma OrderSurvivesRequest(cfg: Config, s: State, q: Request, f: nat)
    requires Inv(s) && Possible(s, q) && f < |s.envelopes| && OrderedDate(s.envelopes[f])
    ensures var t := Apply(cfg, s, q).0;
            f < |t.envelopes| && (t.envelopes[f].basis == s.envelopes[f].basis || OrderedSince(t.txs, f, |s.txs|))
  {
    if q.Submit? {
      InvEnv(s, f);
      assert DateOk(s, f);
      hide Inv, Apply;
      OrderSurvivesSubmit(cfg, s, q, f);
    } else if q.Record? {
      EvidenceHolds(s, q.evidence);
      hide Inv, Apply, EvidenceOk;
      OrderSurvivesReview(cfg, s, q, f);
    } else if q.OrderDate? {
      hide Inv;
      var t := Apply(cfg, s, q).0;
      if t != s { assert t.txs[|s.txs|].filing == q.f && t.txs[|s.txs|].event.DateOrdered?; }
    } else {
      hide Inv, Apply;
      if q.AskFeeReview? || q.Assess? || q.Waive? {
        BasisOfFees(cfg, s, q, f);
      } else if q.Pay? || q.Credit? || q.Reverse? {
        BasisOfPayments(cfg, s, q, f);
      } else {
        BasisOfDocuments(cfg, s, q, f);
      }
    }
  }

  lemma {:induction false} OrderSurvives(cfg: Config, r: seq<State>, i: nat, j: nat, f: nat)
    requires Run(cfg, r) && i <= j < |r| && f < |r[i].envelopes| && OrderedDate(r[i].envelopes[f])
    ensures f < |r[j].envelopes|
    ensures r[j].envelopes[f].basis == r[i].envelopes[f].basis || OrderedSince(r[j].txs, f, |r[i].txs|)
  {
    hide Inv, Apply;
    if i < j {
      OrderSurvives(cfg, r, i, j - 1, f);
      RunInv(cfg, r, j - 1);
      var s, t := r[j - 1], r[j];
      assert Step(cfg, r[j - 1], r[j - 1 + 1]);
      var q :| Possible(s, q) && t == Apply(cfg, s, q).0;
      RunGrows(cfg, r, i, j - 1);
      RunGrows(cfg, r, j - 1, j);
      if s.envelopes[f].basis == r[i].envelopes[f].basis {
        OrderSurvivesRequest(cfg, s, q, f);
      }
    }
  }

  /** Until a later order is recorded, an ordered date outlives return, resubmission and acceptance. */
  lemma OrderedDateSurvives(cfg: Config, r: seq<State>, i: nat, j: nat, f: nat)
    requires Run(cfg, r) && i <= j < |r| && f < |r[i].envelopes| && OrderedDate(r[i].envelopes[f])
    requires !OrderedSince(r[j].txs, f, |r[i].txs|)
    ensures f < |r[j].envelopes| && r[j].envelopes[f].basis == r[i].envelopes[f].basis
    ensures r[j].envelopes[f].filingDate == Some(r[i].envelopes[f].basis.value.date)
  {
    OrderSurvives(cfg, r, i, j, f);
    RunInv(cfg, r, j);
    hide Run;
    InvEnv(r[j], f);
  }

  // ---------------------------------------------------------------- request keys have one effect

  lemma CreationFound(s: State, f: nat)
    requires KeysOk(s) && f < |s.envelopes|
    ensures FindCreation(s.envelopes, s.envelopes[f].filer, s.envelopes[f].creationKey) == Some(f)
  {
    var g := FindCreation(s.envelopes, s.envelopes[f].filer, s.envelopes[f].creationKey);
    hide FindCreation;
    assert g.Some?;
  }

  /** After a filing is created under a key, the same request replays and any other is refused. */
  lemma CreatedOnce(cfg: Config, r: seq<State>, i: nat, j: nat, actor: Actor, key: Key, data: NewFiling, place: Option<Place>, participant: bool,
                    again: NewFiling, place2: Option<Place>, participant2: bool)
    requires Run(cfg, r) && i < j < |r| && CreateFiling(r[i], actor, key, data, place, participant) == (r[i + 1], Ok)
    requires again.filingType.Initial? == again.case_.None?
    ensures CreateFiling(r[j], actor, key, again, place2, participant2) == (r[j], if again == data then Replayed else Refused(409))
  {
    hide Inv, Run, FindCreation, DestinationError;
    RunGrows(cfg, r, i + 1, j);
    RunInv(cfg, r, j);
    InvKeys(r[j]);
    var f := |r[i].envelopes|;
    assert EnvGrows(r[i + 1].envelopes[f], r[j].envelopes[f]);
    CreationFound(r[j], f);
  }

  /** After an upload under a key, nothing under that key changes the tables again. */
  lemma UploadedOnce(cfg: Config, r: seq<State>, i: nat, j: nat, actor: Actor, f: nat, key: Key, objectKey: string, file: File, filename: string,
                     confidential: bool, now: Time, objectKey2: string, file2: File, filename2: string, confidential2: bool, now2: Time)
    requires Run(cfg, r) && i < j < |r| && UploadDocument(r[i], actor, f, key, objectKey, file, filename, confidential, now) == (r[i + 1], Ok)
    ensures var (t, reply) := UploadDocument(r[j], actor, f, key, objectKey2, file2, filename2, confidential2, now2);
            && t == r[j] && (reply == Replayed || reply == Refused(409))
            && (reply == Replayed <==>
                  && FingerprintOf(file, filename, confidential) == FingerprintOf(file2, filename2, confidential2)
                  && IsCurrent(r[j].docs, f, r[i].nextDoc))
            && (reply == Replayed ==>
                  && file2.sha == file.sha && file2.size == file.size && file2.mime == file.mime && file2.docType == file.docType && file2.title == file.title
                  && filename2 == filename && confidential2 == confidential)
  {
    hide Inv;
    RunGrows(cfg, r, i + 1, j);
    hide Run;
    assert UploadGrows(r[i + 1].uploads[(f, key)], r[j].uploads[(f, key)]);
    assert EnvGrows(r[i + 1].envelopes[f], r[j].envelopes[f]);
    if r[i].nextDoc in r[j].docs { assert DocGrows(r[i + 1].docs[r[i].nextDoc], r[j].docs[r[i].nextDoc]); }
  }

  /** After a submission under a key, the same key never submits again. */
  lemma SubmittedOnce(cfg: Config, r: seq<State>, i: nat, j: nat, actor: Actor, f: nat, key: Key, q: Request, q2: Request)
    requires Run(cfg, r) && i < j < |r| && q.Submit? && q2.Submit? && q.actor == q2.actor == actor && q.f == q2.f == f
    requires q.submitKey == q2.submitKey == Some(key) && Apply(cfg, r[i], q) == (r[i + 1], Ok)
    ensures Apply(cfg, r[j], q2) == (r[j], Replayed)
  {
    hide Inv, Fees, SubmissionTokenOf, Complete, Retain, Current;
    RunGrows(cfg, r, i + 1, j);
    hide Run;
    SubmitOwned(cfg, r[i], q);
    var n := |r[i].txs|;
    assert r[j].txs[n] == r[i + 1].txs[n];
    assert r[j].txs[n].filing == f && r[j].txs[n].key == Some(key);
    assert EnvGrows(r[i + 1].envelopes[f], r[j].envelopes[f]);
  }

  lemma CreditRow(cfg: Config, s: State, actor: Actor, key: Key, credit: CreditRequest, now: Time)
    requires credit.actor == actor.id
    ensures var (t, reply) := RecordCredit(cfg, s, actor, key, credit, now);
            reply == Ok ==> |t.payments| == |s.payments| + 1 && t.payments[|s.payments|].external == Some(External(key, credit.receipt, credit))
  {
    hide Fees, CreditError;
  }

  lemma CreditFound(payments: seq<Payment>, p: nat, key: Key)
    requires CreditsOk(payments) && p < |payments| && payments[p].external.Some? && payments[p].external.value.key == key
    ensures FindCredit(payments, key) == Some(p)
  {
    var g := FindCredit(payments, key);
    hide FindCredit;
    assert g.Some?;
  }

  lemma CreditAgain(cfg: Config, s: State, actor: Actor, key: Key, credit: CreditRequest, now: Time, p: nat)
    requires credit.actor == actor.id && PaymentClerk(cfg, s, actor, credit.filing)
    requires FindCredit(s.payments, key) == Some(p)
    ensures RecordCredit(cfg, s, actor, key, credit, now)
         == (s, if s.payments[p].external.value.request == credit then Replayed else Refused(409))
  {
    hide Fees, CreditError;
  }

  /** After a credit under a key, the same request replays and any other is refused. */
  lemma CreditedOnce(cfg: Config, r: seq<State>, i: nat, j: nat, actor: Actor, key: Key, credit: CreditRequest, now: Time,
                     actor2: Actor, again: CreditRequest, now2: Time)
    requires Run(cfg, r) && i < j < |r| && credit.actor == actor.id && again.actor == actor2.id
    requires RecordCredit(cfg, r[i], actor, key, credit, now) == (r[i + 1], Ok) && PaymentClerk(cfg, r[j], actor2, again.filing)
    ensures RecordCredit(cfg, r[j], actor2, key, again, now2) == (r[j], if again == credit then Replayed else Refused(409))
  {
    hide Inv, Run, RecordCredit;
    RunGrows(cfg, r, i + 1, j);
    RunInv(cfg, r, j);
    InvCredits(r[j]);
    CreditRow(cfg, r[i], actor, key, credit, now);
    var p := |r[i].payments|;
    assert PaymentGrows(r[i + 1].payments[p], r[j].payments[p]);
    CreditFound(r[j].payments, p, key);
    CreditAgain(cfg, r[j], actor2, key, again, now2, p);
  }
}
