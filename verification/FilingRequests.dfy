/** Request by request: the invariants are kept and what must only grow grows. */
module FilingRequests {
  import opened Common
  import opened Filings
  import opened FilingInvariants
  import opened FilingSteps
  import CourtCalendars

  lemma GrowsSelf(s: State)
    ensures Grows(s, s)
  {
  }

  /** What every locked section ensures. */
  ghost predicate Keeps(s: State, t: State) {
    Inv(t) && Grows(s, t) && HeldOrRaised(s, t)
  }

  lemma Unchanged(s: State)
    requires Inv(s)
    ensures Keeps(s, s)
  {
    hide Inv;
    GrowsSelf(s);
  }

  lemma QuietKeeps(s: State, t: State, f: nat)
    requires Inv(s) && Touch(s, t, f) && EnvOk(t, f) && DocsOk(t)
    requires t.uploads == s.uploads && t.payments == s.payments && forall i | |s.txs| <= i < |t.txs| :: t.txs[i].key.None?
    requires (forall id | id in s.docs :: id in t.docs) && SameHeld(s, t, f)
    ensures Keeps(s, t)
  {
    hide Inv, EnvOk, DocsOk;
    Quiet(s, t, f);
  }

  /** The envelope's own parts that most sections leave alone. */
  predicate SameCore(a: Envelope, b: Envelope) {
    && a.submissions == b.submissions && a.filedAt == b.filedAt && a.submittedAt == b.submittedAt
    && a.basis == b.basis && a.filingDate == b.filingDate && a.case_ == b.case_ && a.feeAssessment == b.feeAssessment
  }

  predicate PlainEvent(e: Event) {
    !Manifested(e) && !e.CopyPublished?
  }

  lemma InvDocs(s: State)
    requires Inv(s)
    ensures DocsOk(s)
  {
  }

  lemma InvEnv(s: State, f: nat)
    requires Inv(s) && f < |s.envelopes|
    ensures EnvOk(s, f)
  {
  }

  lemma PlainTouch(s: State, f: nat, e: Envelope, more: seq<Tx>)
    requires f < |s.envelopes| && EnvGrows(s.envelopes[f], e)
    requires forall i | 0 <= i < |more| :: more[i].filing == f && PlainEvent(more[i].event)
    ensures Touch(s, WithTx(s, f, e, s.docs, s.nextDoc, more), f)
  {
    WithTxTouch(s, f, e, s.docs, s.nextDoc, more);
  }

  lemma PlainKeeps(s: State, f: nat, e: Envelope, more: seq<Tx>)
    requires Inv(s) && f < |s.envelopes| && EnvGrows(s.envelopes[f], e) && SameCore(s.envelopes[f], e) && StatusOk(e)
    requires e.status == s.envelopes[f].status || (Pending(s.envelopes[f].status) && !e.status.Accepted?)
    requires forall i | 0 <= i < |more| :: more[i].filing == f && PlainEvent(more[i].event) && more[i].key.None?
    ensures Keeps(s, WithTx(s, f, e, s.docs, s.nextDoc, more))
  {
    var t := WithTx(s, f, e, s.docs, s.nextDoc, more);
    PlainTouch(s, f, e, more);
    InvEnv(s, f);
    InvDocs(s);
    assert DocsOk(t) by { assert forall id | id in s.docs :: DocOk(s, id); }
    EnvKept(s, t, f);
    hide Inv;
    QuietKeeps(s, t, f);
  }

  lemma UpdateKeeps(s: State, actor: Actor, f: nat, edit: Edit)
    requires Inv(s)
    ensures Keeps(s, UpdateDetails(s, actor, f, edit).0)
  {
    var (t, reply) := UpdateDetails(s, actor, f, edit);
    if reply.Ok? {
      InvEnv(s, f);
      assert t == WithTx(s, f, t.envelopes[f], s.docs, s.nextDoc, []);
      hide Keeps, Inv;
      PlainKeeps(s, f, t.envelopes[f], []);
    } else {
      Unchanged(s);
    }
  }

  // ---------------------------------------------------------------- sections that only add rows

  /** A section that adds filings, copies or evidence and leaves documents and history alone. */
  lemma Additive(s: State, t: State)
    requires Inv(s) && Grows(s, t) && s.docs == t.docs && s.nextDoc == t.nextDoc && s.txs == t.txs
    requires t.payments == s.payments && t.uploads == s.uploads && s.envelopes <= t.envelopes && DocsOk(t) && CopiesOk(t) && KeysOk(t)
    requires forall f | |s.envelopes| <= f < |t.envelopes| :: EnvOk(t, f)
    requires forall ev | ev in t.reviews && ev !in s.reviews :: EvidenceOk(t, ev)
    ensures Inv(t)
  {
    hide TxOk, EnvOk, EvidenceOk, DocOk, KeysOk, UploadsOk, CopiesOk;
    forall f | 0 <= f < |t.envelopes| ensures EnvOk(t, f) {
      if f < |s.envelopes| { AdditiveEnv(s, t, f); }
    }
    forall i | 0 <= i < |t.txs| ensures TxOk(t, t.txs[i]) { TxKept(s, t, s.txs[i]); }
    forall ev | ev in t.reviews ensures EvidenceOk(t, ev) {
      if ev in s.reviews {
        EvidenceFiling(s, ev);
        AdditiveEnv(s, t, ev.filing);
        EvidenceKept(s, t, ev);
      }
    }
    UploadsKept(s, t);
    PaymentsKept(s, t);
  }

  lemma AdditiveEnv(s: State, t: State, f: nat)
    requires DocsOk(s) && Grows(s, t) && s.docs == t.docs && s.txs == t.txs && s.envelopes <= t.envelopes
    requires f < |s.envelopes| && EnvOk(s, f)
    ensures EnvOk(t, f) && SameHeld(s, t, f)
  {
    EnvKept(s, t, f);
  }

  lemma NewFilingOk(s: State, t: State, f: nat)
    requires Inv(s) && f == |s.envelopes| < |t.envelopes| && s.txs == t.txs && s.docs == t.docs && s.cases == t.cases
    requires var e := t.envelopes[f];
             && e.submissions == 0 && e.filedAt.None? && e.submittedAt.None? && e.status.Draft? && e.basis.None?
             && e.filingDate.None? && e.feeAssessment.None? && CaseOk(s, e)
    ensures EnvOk(t, f)
  {
    assert forall i | 0 <= i < |s.txs| :: TxOk(s, s.txs[i]);
    NoReceipts(t.txs, f);
  }

  lemma RowsHold(s: State, t: State)
    requires Inv(s) && Grows(s, t) && t.docs == s.docs && t.nextDoc == s.nextDoc
    ensures DocsOk(t) && (t.copies == s.copies ==> CopiesOk(t))
  {
    forall id | id in t.docs ensures DocOk(t, id) { assert DocOk(s, id); }
    forall c | 0 <= c < |s.copies| ensures Safe(t, s.copies[c].document) { SafeGrows(s, t, s.copies[c].document); }
  }

  lemma NewKeys(s: State, t: State, e: Envelope)
    requires Inv(s) && t == s.(envelopes := s.envelopes + [e]) && FindCreation(s.envelopes, e.filer, e.creationKey).None?
    ensures KeysOk(t)
  {
    hide EnvOk, TxOk, DocsOk, EvidenceOk, UploadsOk, CopiesOk, PaymentOk;
  }

  lemma CreateKeeps(s: State, actor: Actor, key: Key, data: NewFiling, place: Option<Place>, participant: bool)
    requires Inv(s)
    ensures Keeps(s, CreateFiling(s, actor, key, data, place, participant).0)
  {
    hide Inv, KeysOk, DocsOk, CopiesOk, EvidenceOk, EnvOk;
    var (t, reply) := CreateFiling(s, actor, key, data, place, participant);
    if reply.Ok? {
      NewFilingOk(s, t, |s.envelopes|);
      RowsHold(s, t);
      NewKeys(s, t, t.envelopes[|s.envelopes|]);
      Additive(s, t);
    } else {
      Unchanged(s);
    }
  }

  lemma NewCopyOk(s: State, id: nat, c: Copy)
    requires Inv(s) && id in s.docs && c.document == id
    requires s.docs[id].envelope < |s.envelopes| && s.envelopes[s.docs[id].envelope].status.Accepted?
    ensures CopiesOk(s.(copies := s.copies + [c]))
  {
    assert DocOk(s, id);
    InvEnv(s, s.docs[id].envelope);
  }

  lemma InvKeys(s: State)
    requires Inv(s)
    ensures KeysOk(s)
  {
  }

  lemma PrepareKeeps(s: State, actor: Actor, id: nat, key: string, title: string, sha: Sha, size: nat)
    requires Inv(s)
    ensures Keeps(s, PrepareCopy(s, actor, id, key, title, sha, size).0)
  {
    hide Inv, KeysOk, DocsOk, CopiesOk, EvidenceOk, EnvOk;
    var (t, reply) := PrepareCopy(s, actor, id, key, title, sha, size);
    if reply.Ok? {
      NewCopyOk(s, id, t.copies[|s.copies|]);
      RowsHold(s, t);
      InvKeys(s);
      KeysKept(s, t);
      Additive(s, t);
    } else {
      Unchanged(s);
    }
  }

  lemma CalendarKeeps(s: State, actor: Actor, court: nat, zone: CourtCalendars.Zone, from: int, through: int, closed: map<int, string>)
    requires Inv(s)
    ensures Keeps(s, PublishCalendar(s, actor, court, zone, from, through, closed).0)
  {
    hide Inv, KeysOk, DocsOk, CopiesOk, EvidenceOk, EnvOk;
    var (t, reply) := PublishCalendar(s, actor, court, zone, from, through, closed);
    if reply.Ok? {
      RowsHold(s, t);
      InvKeys(s);
      KeysKept(s, t);
      Additive(s, t);
    } else {
      Unchanged(s);
    }
  }

  /** Evidence is true of the state it was gathered in. */
  lemma EvidenceTrue(s: State, actor: Actor, f: nat, action: Action, count: nat, storage: Storage)
    requires VerifyReview(s, actor, f, action, count, storage).1.Some?
    ensures EvidenceOk(s, VerifyReview(s, actor, f, action, count, storage).1.value)
  {
    CurrentAre(s.docs, f, s.nextDoc);
    var ev := VerifyReview(s, actor, f, action, count, storage).1.value;
    hide Current;
    if action.Accept? {
      assert Prints(s.docs, ReviewIds(s, f, OrderOf(s, f))) == LockedPrints(s, f, ev.ordered);
    }
  }

  lemma AddEvidence(s: State, ev: Evidence)
    requires Inv(s) && EvidenceOk(s, ev)
    ensures Keeps(s, s.(reviews := s.reviews + {ev}))
  {
    hide Inv;
    var t := s.(reviews := s.reviews + {ev});
    InvKeys(s);
    KeysKept(s, t);
    RowsHold(s, t);
    InvDocs(s);
    InvEnv(s, ev.filing);
    EvidenceKept(s, t, ev);
    hide EnvOk, KeysOk, DocsOk, CopiesOk, EvidenceOk;
    Additive(s, t);
  }

  lemma ProbeKeeps(s: State, actor: Actor, f: nat, action: Action, count: nat, storage: Storage)
    requires Inv(s)
    ensures Keeps(s, ProbeReview(s, actor, f, action, count, storage).0)
  {
    hide Inv, EvidenceOk, VerifyReview;
    if VerifyReview(s, actor, f, action, count, storage).1.Some? {
      EvidenceTrue(s, actor, f, action, count, storage);
      AddEvidence(s, VerifyReview(s, actor, f, action, count, storage).1.value);
    } else {
      Unchanged(s);
    }
  }

  // ---------------------------------------------------------------- documents

  /** Document rows are judged by the document, copy and filing tables alone. */
  lemma DocsOf(s: State, t: State)
    requires DocsOk(s) && t.docs == s.docs && t.nextDoc == s.nextDoc && t.copies == s.copies && |t.envelopes| == |s.envelopes|
    ensures DocsOk(t)
  {
    forall id | id in t.docs ensures DocOk(t, id) { assert DocOk(s, id); }
  }

  lemma NewUploadOk(s: State, t: State, k: (nat, Key), u: Upload)
    requires Inv(s) && Grows(s, t) && k !in s.uploads && k.0 < |s.envelopes| && t.uploads == s.uploads[k := u]
    requires u.document == Some(s.nextDoc) && s.nextDoc in t.docs && s.nextDoc < t.nextDoc && t.docs[s.nextDoc].envelope == k.0
    requires t.docs[s.nextDoc].file.sha == u.fingerprint.sha && t.docs[s.nextDoc].file.size == u.fingerprint.size
    requires forall id | id in s.docs :: id in t.docs
    ensures UploadsOk(t)
  {
    hide EnvOk, TxOk, EvidenceOk, KeysOk, CopiesOk, PaymentOk;
    forall l | l in t.uploads ensures UploadOk(t, l) {
      if l != k { assert UploadOk(s, l); }
    }
    assert forall l | l in s.uploads :: UploadOk(s, l);
  }

  /** The shape both document sections leave: an editable filing with a new fee version. */
  ghost predicate Edited(s: State, t: State, f: nat) {
    && Touch(s, t, f) && t.txs == s.txs && t.payments == s.payments && Editable(s.envelopes[f].status)
    && t.envelopes[f] == s.envelopes[f].(feeVersion := s.envelopes[f].feeVersion + 1)
  }

  lemma EditKeeps(s: State, t: State, f: nat)
    requires Inv(s) && Edited(s, t, f) && DocsOk(t) && UploadsOk(t)
    ensures Keeps(s, t)
  {
    InvDocs(s);
    InvEnv(s, f);
    assert StatusOk(t.envelopes[f]);
    EnvKept(s, t, f);
    InvKeys(s);
    KeysKept(s, t);
    PaymentsKept(s, t);
    TouchHolds(s, t, f);
    hide Inv, EnvOk, DocsOk, UploadsOk, KeysOk;
    OneFiling(s, t, f);
  }

  lemma PutKeeps(s: State, f: nat, key: Key, d: Doc, u: Upload)
    requires Inv(s) && f < |s.envelopes| && Editable(s.envelopes[f].status) && (f, key) !in s.uploads
    requires d.envelope == f && !CourtType(d.file.docType) && d.publicCopy.None?
    requires u.document == Some(s.nextDoc) && d.file.sha == u.fingerprint.sha && d.file.size == u.fingerprint.size
    ensures var e := s.envelopes[f];
            Keeps(s, WithTx(s, f, e.(feeVersion := e.feeVersion + 1), s.docs[s.nextDoc := d], s.nextDoc + 1, [])
                       .(uploads := s.uploads[(f, key) := u]))
  {
    hide Inv, Keeps, EnvOk, UploadsOk, DocsOk;
    InvDocs(s);
    var e, docs := s.envelopes[f].(feeVersion := s.envelopes[f].feeVersion + 1), s.docs[s.nextDoc := d];
    AddDoc(s, f, d);
    WithTxTouch(s, f, e, docs, s.nextDoc + 1, []);
    var t := WithTx(s, f, e, docs, s.nextDoc + 1, []).(uploads := s.uploads[(f, key) := u]);
    TouchMore(s, WithTx(s, f, e, docs, s.nextDoc + 1, []), t, f);
    NewUploadOk(s, t, (f, key), u);
    DocsOf(s.(docs := docs, nextDoc := s.nextDoc + 1), t);
    EditKeeps(s, t, f);
  }

  lemma UploadKeeps(s: State, actor: Actor, f: nat, key: Key, objectKey: string, file: File, filename: string, confidential: bool, now: Time)
    requires Inv(s)
    ensures Keeps(s, UploadDocument(s, actor, f, key, objectKey, file, filename, confidential, now).0)
  {
    hide Inv, Keeps, WithTx;
    var (t, reply) := UploadDocument(s, actor, f, key, objectKey, file, filename, confidential, now);
    if reply.Ok? {
      var d := Doc(f, objectKey, file, now, confidential || PrivateType(file.docType), None, None, 0, None);
      PutKeeps(s, f, key, d, Upload(FingerprintOf(file, filename, confidential), Some(s.nextDoc)));
    } else {
      Unchanged(s);
    }
  }

  lemma ForgetOk(s: State, t: State, id: nat)
    requires Inv(s) && Grows(s, t) && t.uploads == Forget(s.uploads, id) && t.docs == s.docs - {id}
    ensures UploadsOk(t)
  {
    hide EnvOk, TxOk, EvidenceOk, KeysOk, CopiesOk, PaymentOk;
    forall l | l in t.uploads ensures UploadOk(t, l) { assert UploadOk(s, l); }
  }

  lemma InvUploads(s: State)
    requires Inv(s)
    ensures UploadsOk(s)
  {
  }

  lemma RemovedDoc(s: State, f: nat, id: nat, d: Doc, now: Time)
    requires DocsOk(s) && id in s.docs && s.docs[id].envelope == f && s.docs[id].removedAt.None? && d == s.docs[id].(removedAt := Some(now))
    ensures DocsGrow(s, s.docs[id := d], s.nextDoc) && OthersSame(s, s.docs[id := d], f) && DocsOk(s.(docs := s.docs[id := d]))
  {
    assert DocOk(s, id);
    hide DocOk, DocsOk, DocsGrow, OthersSame;
    ChangeDoc(s, f, id, d);
    ChangeHolds(s, id, d);
  }

  lemma SoftRemoveKeeps(s: State, f: nat, id: nat, now: Time)
    requires Inv(s) && f < |s.envelopes| && Editable(s.envelopes[f].status) && IsCurrent(s.docs, f, id)
    ensures var e := s.envelopes[f];
            Keeps(s, WithTx(s, f, e.(feeVersion := e.feeVersion + 1), s.docs[id := s.docs[id].(removedAt := Some(now))], s.nextDoc, []))
  {
    hide Keeps, Inv, EnvOk, UploadsOk, DocsOk, DocsGrow, OthersSame, Grows, TxOk;
    InvDocs(s);
    InvUploads(s);
    var e, d := s.envelopes[f], s.docs[id].(removedAt := Some(now));
    RemovedDoc(s, f, id, d, now);
    var next := e.(feeVersion := e.feeVersion + 1);
    var t := WithTx(s, f, next, s.docs[id := d], s.nextDoc, []);
    WithTxTouch(s, f, next, s.docs[id := d], s.nextDoc, []);
    DocsOf(s.(docs := s.docs[id := d]), t);
    UploadsKept(s, t);
    EditKeeps(s, t, f);
  }

  lemma HardRemoveKeeps(s: State, f: nat, id: nat)
    requires Inv(s) && f < |s.envelopes| && Editable(s.envelopes[f].status) && IsCurrent(s.docs, f, id) && !Safe(s, id)
    ensures var e := s.envelopes[f];
            Keeps(s, WithTx(s, f, e.(feeVersion := e.feeVersion + 1), s.docs - {id}, s.nextDoc, []).(uploads := Forget(s.uploads, id)))
  {
    hide Keeps, Inv, EnvOk, UploadsOk, EvidenceOk, KeysOk, CopiesOk;
    InvDocs(s);
    var e := s.envelopes[f];
    DeleteDoc(s, f, id);
    var next := e.(feeVersion := e.feeVersion + 1);
    var u := WithTx(s, f, next, s.docs - {id}, s.nextDoc, []);
    var t := u.(uploads := Forget(s.uploads, id));
    WithTxTouch(s, f, next, s.docs - {id}, s.nextDoc, []);
    TouchMore(s, u, t, f);
    DocsOf(s.(docs := s.docs - {id}), t);
    ForgetOk(s, t, id);
    EditKeeps(s, t, f);
  }

  lemma RemoveKeeps(s: State, actor: Actor, f: nat, id: nat, now: Time)
    requires Inv(s)
    ensures Keeps(s, RemoveDocument(s, actor, f, id, now).0)
  {
    hide Inv, Keeps;
    var (t, reply) := RemoveDocument(s, actor, f, id, now);
    if !reply.Ok? {
      Unchanged(s);
    } else if s.docs[id].retainedAt.Some? || s.envelopes[f].submittedAt.Some? {
      SoftRemoveKeeps(s, f, id, now);
    } else {
      HardRemoveKeeps(s, f, id);
    }
  }

  // ---------------------------------------------------------------- manifests

  lemma ManifestKept(s: State, t: State, f: nat, now: Time)
    requires DocsOk(s) && CurrentOf(s, f) != [] && f < |t.envelopes|
    requires t.docs == Retain(s.docs, CurrentOf(s, f), now) && t.nextDoc == s.nextDoc
    ensures Stored(s.docs, CurrentOf(s, f)) && AllKept(t, f, Manifest(s.docs, CurrentOf(s, f)))
  {
    CurrentAre(s.docs, f, s.nextDoc);
    hide Current;
    var ids := CurrentOf(s, f);
    var m := Manifest(s.docs, ids);
    forall k | 0 <= k < |m| ensures Kept(t, f, m[k]) {
      assert DocOk(s, ids[k]);
    }
  }

  lemma ManifestPrints(docs: map<nat, Doc>, ids: seq<nat>)
    requires Stored(docs, ids)
    ensures EntryPrints(Manifest(docs, ids)) == Prints(docs, ids)
  {
  }

  /** The state after the current documents are retained and one manifest event is recorded. */
  lemma RetainTouch(s: State, f: nat, e: Envelope, tx: Tx, now: Time)
    requires Inv(s) && f < |s.envelopes| && EnvGrows(s.envelopes[f], e) && CurrentOf(s, f) != []
    requires tx.filing == f && Manifested(tx.event) && (tx.event.Receipt? ==> SameDestination(e, tx.event))
    requires Stored(s.docs, CurrentOf(s, f)) && tx.event.documents == Manifest(s.docs, CurrentOf(s, f))
    ensures var t := WithTx(s, f, e, Retain(s.docs, CurrentOf(s, f), now), s.nextDoc, [tx]);
            Touch(s, t, f) && DocsOk(t) && SameHeld(s, t, f)
  {
    hide Inv, EnvGrows;
    var docs := Retain(s.docs, CurrentOf(s, f), now);
    InvDocs(s);
    RetainDocs(s, f, now);
    RetainHolds(s, f, now);
    var t := WithTx(s, f, e, docs, s.nextDoc, [tx]);
    ManifestKept(s, t, f, now);
    WithTxTouch(s, f, e, docs, s.nextDoc, [tx]);
    DocsOf(s.(docs := docs), t);
  }

  lemma FeeReviewKeeps(s: State, actor: Actor, f: nat, expected: nat, reason: string, storage: Storage, now: Time)
    requires Inv(s)
    ensures Keeps(s, RequestFeeReview(s, actor, f, expected, reason, storage, now).0)
  {
    hide Keeps, Inv, EnvOk, DocsOk;
    var (t, reply) := RequestFeeReview(s, actor, f, expected, reason, storage, now);
    if reply.Ok? {
      CurrentAre(s.docs, f, s.nextDoc);
      hide Current;
      RetainTouch(s, f, t.envelopes[f], t.txs[|s.txs|], now);
      InvEnv(s, f);
      InvDocs(s);
      EnvStatus(s, f);
      EnvKept(s, t, f);
      QuietKeeps(s, t, f);
    } else {
      Unchanged(s);
    }
  }

  lemma EnvStatus(s: State, f: nat)
    requires f < |s.envelopes| && EnvOk(s, f)
    ensures StatusOk(s.envelopes[f])
  {
  }

  lemma AssessedFeeOk(s: State, t: State, f: nat)
    requires f < |s.envelopes| == |t.envelopes| && DocsOk(s) && SameHeld(s, t, f) && s.nextDoc <= t.nextDoc && |t.txs| == |s.txs| + 1
    requires Stored(s.docs, CurrentOf(s, f))
    requires var tx, e := t.txs[|s.txs|], t.envelopes[f];
             && tx.filing == f && tx.event.FeeAssessed? && tx.event.version == e.feeVersion && e.feeAssessment == Some(|s.txs|)
             && tx.event.documents == Manifest(s.docs, CurrentOf(s, f))
    ensures FeeOk(t, f)
  {
    HeldSame(s, t, f);
    ManifestPrints(s.docs, CurrentOf(s, f));
  }

  lemma AssessKeeps(s: State, actor: Actor, f: nat, expected: nat, total: nat, authority: string, storage: Storage, now: Time)
    requires Inv(s)
    ensures Keeps(s, AssessFees(s, actor, f, expected, total, authority, storage, now).0)
  {
    hide Keeps, Inv, DocsOk;
    var (t, reply) := AssessFees(s, actor, f, expected, total, authority, storage, now);
    if reply.Ok? {
      CurrentAre(s.docs, f, s.nextDoc);
      hide Current;
      InvEnv(s, f);
      InvDocs(s);
      RetainTouch(s, f, t.envelopes[f], t.txs[|s.txs|], now);
      AssessedFeeOk(s, t, f);
      AssessedEnv(s, t, f);
      hide EnvOk, Touch;
      QuietKeeps(s, t, f);
    } else {
      Unchanged(s);
    }
  }

  lemma AssessedEnv(s: State, t: State, f: nat)
    requires Calm(s, t, f) && EnvOk(s, f) && DocsOk(s) && FeeOk(t, f) && SameHeld(s, t, f)
    requires SameCore(s.envelopes[f], t.envelopes[f].(feeAssessment := s.envelopes[f].feeAssessment))
    requires t.envelopes[f].status == s.envelopes[f].status
    ensures EnvOk(t, f)
  {
    NumberedKept(s, t, f);
    DateKept(s, t, f);
    HeldKept(s, t, f);
    CaseKept(s, t, f);
    assert EnvGrows(s.envelopes[f], t.envelopes[f]);
  }

  // ---------------------------------------------------------------- submission

  lemma SubmittedNumbered(s: State, t: State, f: nat, assessed: CourtCalendars.Assessment, now: Time)
    requires f < |s.envelopes| == |t.envelopes| && Numbered(s.envelopes[f], Receipts(s.txs, f))
    requires t.envelopes[f] == SubmittedEnvelope(s.envelopes[f], assessed, now)
    requires |t.txs| == |s.txs| + 1 && s.txs <= t.txs
    requires var tx := t.txs[|s.txs|];
             tx.filing == f && tx.event.Receipt? && tx.at == now && tx.submission == s.envelopes[f].submissions + 1
    ensures Receipts(t.txs, f) == Receipts(s.txs, f) + [t.txs[|s.txs|]]
    ensures Numbered(t.envelopes[f], Receipts(t.txs, f))
  {
    assert t.txs == s.txs + [t.txs[|s.txs|]];
    ReceiptsAppend(s.txs, [t.txs[|s.txs|]], f);
    assert Receipts([t.txs[|s.txs|]], f) == [t.txs[|s.txs|]] by { assert [t.txs[|s.txs|]][..0] == []; }
  }

  lemma SubmittedHeld(s: State, t: State, f: nat)
    requires f < |s.envelopes| == |t.envelopes| && DocsOk(s) && SameHeld(s, t, f) && s.nextDoc <= t.nextDoc
    requires |t.txs| == |s.txs| + 1 && Receipts(t.txs, f) == Receipts(s.txs, f) + [t.txs[|s.txs|]]
    requires Stored(s.docs, CurrentOf(s, f)) && t.txs[|s.txs|].event.Receipt?
    requires t.txs[|s.txs|].event.documents == Manifest(s.docs, CurrentOf(s, f))
    ensures HeldOk(t, f)
  {
    HeldSame(s, t, f);
    ManifestPrints(s.docs, CurrentOf(s, f));
  }

  lemma SubmittedEnv(s: State, t: State, f: nat, assessed: CourtCalendars.Assessment, now: Time)
    requires f < |s.envelopes| == |t.envelopes| && Grows(s, t) && DocsOk(s) && EnvOk(s, f) && SameHeld(s, t, f)
    requires t.envelopes[f] == SubmittedEnvelope(s.envelopes[f], assessed, now) && Editable(s.envelopes[f].status)
    requires |t.txs| == |s.txs| + 1 && t.cases == s.cases && Stored(s.docs, CurrentOf(s, f))
    requires var tx := t.txs[|s.txs|];
             && tx.filing == f && tx.event.Receipt? && tx.at == now && tx.submission == s.envelopes[f].submissions + 1
             && tx.event.documents == Manifest(s.docs, CurrentOf(s, f))
    ensures EnvOk(t, f)
  {
    SubmittedNumbered(s, t, f, assessed, now);
    SubmittedHeld(s, t, f);
    hide Receipts, Current;
    FeeKept(s, t, f);
    CaseKept(s, t, f);
    if t.envelopes[f].basis == s.envelopes[f].basis {
      DateKept(s, t, f);
    }
  }

  lemma SubmitKeys(s: State, t: State, f: nat)
    requires KeysOk(s) && Grows(s, t) && |t.envelopes| == |s.envelopes| && t.payments == s.payments && |t.txs| == |s.txs| + 1
    requires t.txs[|s.txs|].filing == f && !KeyUsed(s.txs, f, t.txs[|s.txs|].key)
    ensures KeysOk(t)
  {
    assert forall g | 0 <= g < |s.envelopes| :: EnvGrows(s.envelopes[g], t.envelopes[g]);
    hide DocsGrow, EnvGrows;
    assert forall i | 0 <= i < |s.txs| :: t.txs[i] == s.txs[i];
  }

  lemma SubmitKeeps(cfg: Config, s: State, actor: Actor, f: nat, key: Option<Key>, token: SubmissionToken,
                    place: Option<Place>, participant: bool, required: bool, prints: seq<Print>,
                    assessed: CourtCalendars.Assessment, now: Time)
    requires Inv(s)
    ensures Keeps(s, SubmitFiling(cfg, s, actor, f, key, token, place, participant, required, prints, assessed, now).0)
  {
    hide Keeps, Inv, DocsOk, Fees, SubmissionTokenOf;
    var (t, reply) := SubmitFiling(cfg, s, actor, f, key, token, place, participant, required, prints, assessed, now);
    if reply.Ok? {
      CurrentAre(s.docs, f, s.nextDoc);
      hide Current;
      InvEnv(s, f);
      InvDocs(s);
      RetainTouch(s, f, t.envelopes[f], t.txs[|s.txs|], now);
      SubmittedEnv(s, t, f, assessed, now);
      SubmitFinish(s, t, f);
    } else {
      Unchanged(s);
    }
  }

  lemma SubmitFinish(s: State, t: State, f: nat)
    requires Inv(s) && Touch(s, t, f) && EnvOk(t, f) && DocsOk(t) && |t.txs| == |s.txs| + 1 && !KeyUsed(s.txs, f, t.txs[|s.txs|].key)
    requires t.payments == s.payments && t.uploads == s.uploads && SameHeld(s, t, f) && forall id | id in s.docs :: id in t.docs
    ensures Keeps(s, t)
  {
    InvKeys(s);
    InvDocs(s);
    InvUploads(s);
    hide Inv, EnvOk;
    SubmitKeys(s, t, f);
    UploadsKept(s, t);
    PaymentsKept(s, t);
    TouchHolds(s, t, f);
    hide KeysOk, UploadsOk, DocsOk;
    OneFiling(s, t, f);
  }

  // ---------------------------------------------------------------- court orders

  /** The state after a signed court document is added and the event that carries it recorded. */
  lemma CourtDocTouch(s: State, f: nat, e: Envelope, d: Doc, tx: Tx)
    requires Inv(s) && f < |s.envelopes| && EnvGrows(s.envelopes[f], e)
    requires d.envelope == f && CourtType(d.file.docType) && d.retainedAt.Some? && d.publicCopy.None?
    requires tx.filing == f && (tx.event.WaiverDecided? || tx.event.DateOrdered?) && tx.event.documents == [EntryOf(s.nextDoc, d)]
    ensures var t := WithTx(s, f, e, s.docs[s.nextDoc := d], s.nextDoc + 1, [tx]);
            Touch(s, t, f) && DocsOk(t) && SameHeld(s, t, f)
  {
    hide Inv, EnvGrows;
    InvDocs(s);
    AddDoc(s, f, d);
    var docs := s.docs[s.nextDoc := d];
    var t := WithTx(s, f, e, docs, s.nextDoc + 1, [tx]);
    assert Kept(t, f, EntryOf(s.nextDoc, d));
    WithTxTouch(s, f, e, docs, s.nextDoc + 1, [tx]);
    DocsOf(s.(docs := docs, nextDoc := s.nextDoc + 1), t);
  }

  lemma WaiveKeeps(s: State, actor: Actor, f: nat, expected: nat, action: WaiverAction, reason: string, due: Option<nat>,
                   order: Option<(string, File)>, now: Time)
    requires Inv(s)
    ensures Keeps(s, DecideWaiver(s, actor, f, expected, action, reason, due, order, now).0)
  {
    hide Keeps, Inv, DocsOk, EnvOk;
    var (t, reply) := DecideWaiver(s, actor, f, expected, action, reason, due, order, now);
    if !reply.Ok? {
      Unchanged(s);
    } else {
      InvEnv(s, f);
      EnvStatus(s, f);
      if order.None? {
        PlainKeeps(s, f, t.envelopes[f], [t.txs[|s.txs|]]);
      } else {
        InvDocs(s);
        CourtDocTouch(s, f, t.envelopes[f], t.docs[s.nextDoc], t.txs[|s.txs|]);
        EnvKept(s, t, f);
        QuietKeeps(s, t, f);
      }
    }
  }

  lemma OrderedEnv(s: State, t: State, f: nat)
    requires Calm(s, t, f) && EnvOk(s, f) && DocsOk(s) && SameHeld(s, t, f) && DateOk(t, f)
    requires var e := s.envelopes[f];
             t.envelopes[f] == e.(filingDate := t.envelopes[f].filingDate, basis := t.envelopes[f].basis, dateVersion := e.dateVersion + 1)
    ensures EnvOk(t, f)
  {
    NumberedKept(s, t, f);
    FeeKept(s, t, f);
    HeldKept(s, t, f);
    CaseKept(s, t, f);
  }

  lemma DatedKeeps(s: State, f: nat, e: Envelope, d: Doc, tx: Tx, cases: seq<Case>)
    requires Inv(s) && f < |s.envelopes| && |cases| == |s.cases| && forall c | 0 <= c < |s.cases| :: CaseGrows(s.cases[c], cases[c])
    requires d.envelope == f && d.file.docType.FilingDateOrder? && d.retainedAt.Some? && d.publicCopy.None?
    requires tx.filing == f && tx.event.DateOrdered? && tx.event.documents == [EntryOf(s.nextDoc, d)] && tx.key.None?
    requires e.basis.Some? && e.basis.value.CourtOrder? && e.basis.value.order == s.nextDoc && e.filingDate == Some(e.basis.value.date)
    requires e == s.envelopes[f].(filingDate := e.filingDate, basis := e.basis, dateVersion := s.envelopes[f].dateVersion + 1)
    ensures Keeps(s, WithTx(s, f, e, s.docs[s.nextDoc := d], s.nextDoc + 1, [tx]).(cases := cases))
  {
    hide Keeps, Inv, DocsOk, EnvOk;
    InvEnv(s, f);
    InvDocs(s);
    CourtDocTouch(s, f, e, d, tx);
    var u := WithTx(s, f, e, s.docs[s.nextDoc := d], s.nextDoc + 1, [tx]);
    var t := u.(cases := cases);
    TouchMore(s, u, t, f);
    DocsOf(u, t);
    OrderedEnv(s, t, f);
    QuietKeeps(s, t, f);
  }

  lemma OrderKeeps(s: State, actor: Actor, f: nat, expected: nat, order: DateOrder, objectKey: string, file: File, now: Time)
    requires Inv(s)
    ensures Keeps(s, RecordDateOrder(s, actor, f, expected, order, objectKey, file, now).0)
  {
    hide Keeps, Inv;
    var (t, reply) := RecordDateOrder(s, actor, f, expected, order, objectKey, file, now);
    if reply.Ok? {
      EnvSame(s);
      DatedKeeps(s, f, t.envelopes[f], t.docs[s.nextDoc], t.txs[|s.txs|], t.cases);
    } else {
      Unchanged(s);
    }
  }

  // ---------------------------------------------------------------- public copies

  lemma AccessKeeps(s: State, id: nat, d: Doc, tx: Tx)
    requires Inv(s) && id in s.docs && DocGrows(s.docs[id], d) && d.removedAt == s.docs[id].removedAt && d.confidential
    requires d.publicCopy.Some? ==> 0 < d.publicCopy.value <= |s.copies| && s.copies[d.publicCopy.value - 1].document == id
    requires d.envelope < |s.envelopes| && tx.filing == d.envelope && tx.key.None? && !Manifested(tx.event)
    requires var t := WithTx(s, d.envelope, s.envelopes[d.envelope], s.docs[id := d], s.nextDoc, [tx]); TxOk(t, tx)
    ensures Keeps(s, WithTx(s, d.envelope, s.envelopes[d.envelope], s.docs[id := d], s.nextDoc, [tx]))
  {
    hide Keeps, Inv, EnvOk, DocsOk, TxOk, Manifested;
    var f := d.envelope;
    var t := WithTx(s, f, s.envelopes[f], s.docs[id := d], s.nextDoc, [tx]);
    InvDocs(s);
    InvEnv(s, f);
    EnvStatus(s, f);
    EnvSame(s);
    ChangeDoc(s, f, id, d);
    ChangeHolds(s, id, d);
    DocsOf(s.(docs := s.docs[id := d]), t);
    WithTxTouch(s, f, s.envelopes[f], s.docs[id := d], s.nextDoc, [tx]);
    assert !tx.event.Receipt? by { ManifestedReceipt(tx.event); }
    EnvKept(s, t, f);
    QuietKeeps(s, t, f);
  }

  lemma ManifestedReceipt(e: Event)
    ensures e.Receipt? ==> Manifested(e)
  {
  }

  lemma AcceptedSubmitted(s: State, f: nat)
    requires f < |s.envelopes| && EnvOk(s, f) && !s.envelopes[f].status.Draft?
    ensures s.envelopes[f].submittedAt.Some?
  {
  }

  lemma DocHolds(s: State, id: nat)
    requires DocsOk(s) && id in s.docs
    ensures DocOk(s, id)
  {
  }

  lemma PublishKeeps(s: State, actor: Actor, id: nat, copyId: nat, expected: nat, now: Time)
    requires Inv(s)
    ensures Keeps(s, PublishCopy(s, actor, id, copyId, expected, now).0)
  {
    hide Keeps, Inv, EnvOk, DocsOk;
    var (t, reply) := PublishCopy(s, actor, id, copyId, expected, now);
    if t == s {
      Unchanged(s);
    } else {
      InvDocs(s);
      DocHolds(s, id);
      InvEnv(s, s.docs[id].envelope);
      AcceptedSubmitted(s, s.docs[id].envelope);
      AccessKeeps(s, id, t.docs[id], t.txs[|s.txs|]);
    }
  }

  lemma WithholdKeeps(s: State, actor: Actor, id: nat, expected: nat, now: Time)
    requires Inv(s)
    ensures Keeps(s, WithholdDocument(s, actor, id, expected, now).0)
  {
    hide Keeps, Inv, EnvOk, DocsOk;
    var (t, reply) := WithholdDocument(s, actor, id, expected, now);
    if t == s {
      Unchanged(s);
    } else {
      AccessKeeps(s, id, t.docs[id], t.txs[|s.txs|]);
    }
  }

  // ---------------------------------------------------------------- review

  lemma AcceptedEnv(s: State, t: State, f: nat)
    requires Calm(s, t, f) && EnvOk(s, f) && DocsOk(s) && SameHeld(s, t, f) && DateOk(t, f) && CaseOk(t, t.envelopes[f])
    requires Pending(s.envelopes[f].status) && StatusOk(t.envelopes[f]) && !Editable(t.envelopes[f].status)
    requires t.envelopes[f].feeAssessment == s.envelopes[f].feeAssessment
    ensures EnvOk(t, f)
  {
    NumberedKept(s, t, f);
    FeeKept(s, t, f);
    HeldKept(s, t, f);
  }

  lemma AcceptedDate(s: State, t: State, ev: Evidence, assessed: CourtCalendars.Assessment)
    requires ev.filing < |s.envelopes| && Grows(s, t) && DocsOk(s) && DateOk(s, ev.filing)
    requires ev.ordered == OrderedDate(s.envelopes[ev.filing])
    requires var e, d := t.envelopes[ev.filing], DatedEnvelope(s.envelopes[ev.filing], ev, assessed);
             e.basis == d.basis && e.filingDate == d.filingDate
    ensures DateOk(t, ev.filing)
  {
    if ev.ordered {
      DateKept(s, t, ev.filing);
    }
  }

  lemma AcceptedCase(s: State, t: State, f: nat)
    requires f < |s.envelopes| && Grows(s, t) && CaseOk(s, s.envelopes[f]) && Pending(s.envelopes[f].status)
    requires var was, e := s.envelopes[f], t.envelopes[f];
             || (e.case_ == was.case_ && (e.status.Accepted? ==> was.case_.Some?))
             || (was.case_.None? && e.case_ == Some(|s.cases|) && |t.cases| == |s.cases| + 1 && e.status.Accepted?
                 && t.cases[|s.cases|].court == was.court && t.cases[|s.cases|].caseType == was.caseType)
    ensures CaseOk(t, t.envelopes[f])
  {
    if t.envelopes[f].case_ == s.envelopes[f].case_ {
      CaseKept(s, t, f);
    } else {
      assert EnvGrows(s.envelopes[f], t.envelopes[f]);
    }
  }

  lemma EvidenceHolds(s: State, ev: Evidence)
    requires Inv(s) && ev in s.reviews
    ensures EvidenceOk(s, ev)
  {
  }

  lemma AcceptTouch(s: State, ev: Evidence, actor: Actor, assessed: CourtCalendars.Assessment, cms: CmsResult, now: Time)
    requires Inv(s) && ev.filing < |s.envelopes| && Pending(s.envelopes[ev.filing].status)
    requires OrElse(s.envelopes[ev.filing].filedAt, s.envelopes[ev.filing].submittedAt).Some?
    ensures var t := Accepting(s, ev, actor, assessed, cms, now); Touch(s, t, ev.filing) && DocsOk(t) && Calm(s, t, ev.filing)
    ensures var t := Accepting(s, ev, actor, assessed, cms, now); forall i | |s.txs| <= i < |t.txs| :: t.txs[i].key.None?
  {
    hide Inv;
    var f, t := ev.filing, Accepting(s, ev, actor, assessed, cms, now);
    var u := t.(cases := s.cases);
    var more := t.txs[|s.txs|..];
    assert t.txs == s.txs + more;
    assert u == WithTx(s, f, t.envelopes[f], s.docs, s.nextDoc, more);
    EnvSame(s);
    PlainTouch(s, f, t.envelopes[f], more);
    TouchMore(s, u, t, f);
    InvDocs(s);
    DocsOf(s, t);
  }

  lemma AcceptKeeps(cfg: Config, s: State, actor: Actor, ev: Evidence, place: Option<Place>,
                    assessed: CourtCalendars.Assessment, cms: CmsResult, now: Time)
    requires Inv(s) && ev in s.reviews && ev.filing < |s.envelopes| && Pending(s.envelopes[ev.filing].status)
    requires AcceptError(cfg, s, ev, place, assessed).None?
    ensures Keeps(s, Accepting(s, ev, actor, assessed, cms, now))
  {
    hide Keeps, Inv, DocsOk, Touch, LockedPrints;
    var f, t := ev.filing, Accepting(s, ev, actor, assessed, cms, now);
    InvEnv(s, f);
    InvDocs(s);
    EvidenceHolds(s, ev);
    AcceptTouch(s, ev, actor, assessed, cms, now);
    AcceptedDate(s, t, ev, assessed);
    AcceptedCase(s, t, f);
    assert StatusOk(t.envelopes[f]);
    hide Numbered, HeldOk, FeeOk;
    AcceptedEnv(s, t, f);
    hide EnvOk;
    QuietKeeps(s, t, f);
  }

  lemma RecordKeeps(cfg: Config, s: State, actor: Actor, ev: Evidence, reason: string, place: Option<Place>,
                    assessed: CourtCalendars.Assessment, cms: CmsResult, now: Time)
    requires Inv(s) && ev in s.reviews && ev.filing < |s.envelopes|
    ensures Keeps(s, RecordReview(cfg, s, actor, ev, reason, place, assessed, cms, now).0)
  {
    hide Keeps, Inv, Accepting, AcceptError, EnvOk;
    var (t, reply) := RecordReview(cfg, s, actor, ev, reason, place, assessed, cms, now);
    if !reply.Ok? {
      Unchanged(s);
    } else if ev.action.Accept? {
      AcceptKeeps(cfg, s, actor, ev, place, assessed, cms, now);
    } else {
      InvEnv(s, ev.filing);
      EnvStatus(s, ev.filing);
      PlainKeeps(s, ev.filing, t.envelopes[ev.filing], [t.txs[|s.txs|]]);
    }
  }

  // ---------------------------------------------------------------- payments

  lemma PaymentKeeps(s: State, t: State, f: nat, e: Envelope, tx: Tx)
    requires Inv(s) && f < |s.envelopes| && EnvGrows(s.envelopes[f], e) && SameCore(s.envelopes[f], e) && e.status == s.envelopes[f].status
    requires tx.filing == f && PlainEvent(tx.event) && tx.key.None?
    requires t == WithTx(s, f, e, s.docs, s.nextDoc, [tx]).(payments := t.payments)
    requires |s.payments| <= |t.payments| && forall p | 0 <= p < |s.payments| :: PaymentGrows(s.payments[p], t.payments[p])
    requires KeysOk(t) && forall p | 0 <= p < |t.payments| :: PaymentOk(t, t.payments[p])
    ensures Keeps(s, t)
  {
    hide Inv, KeysOk, EnvOk, DocsOk, PaymentOk, PaymentGrows;
    var u := WithTx(s, f, e, s.docs, s.nextDoc, [tx]);
    EnvSame(s);
    PlainTouch(s, f, e, [tx]);
    TouchMore(s, u, t, f);
    InvDocs(s);
    InvUploads(s);
    InvEnv(s, f);
    DocsOf(s, t);
    UploadsKept(s, t);
    EnvStatus(s, f);
    EnvKept(s, t, f);
    TouchHolds(s, t, f);
    OneFiling(s, t, f);
  }

  ghost predicate CreditsOk(payments: seq<Payment>) {
    forall p, q | 0 <= p < q < |payments| && payments[p].external.Some? && payments[q].external.Some? ::
      && payments[p].external.value.key != payments[q].external.value.key
      && (payments[p].status.Completed? && payments[q].status.Completed? ==>
            payments[p].external.value.receipt != payments[q].external.value.receipt)
  }

  lemma PaymentFacts(s: State, t: State, f: nat, e: Envelope, tx: Tx)
    requires Inv(s) && f < |s.envelopes| && EnvGrows(s.envelopes[f], e) && tx.key.None?
    requires t == WithTx(s, f, e, s.docs, s.nextDoc, [tx]).(payments := t.payments) && CreditsOk(t.payments)
    ensures KeysOk(t) && CreditsOk(s.payments)
    ensures forall p | 0 <= p < |s.payments| :: PaymentOk(t, s.payments[p])
  {
    hide EnvOk, TxOk, DocsOk, EvidenceOk, UploadsOk, CopiesOk;
    forall p | 0 <= p < |s.payments| ensures PaymentOk(t, s.payments[p]) {
      assert PaymentOk(s, s.payments[p]);
    }
  }

  lemma InvCredits(s: State)
    requires Inv(s)
    ensures CreditsOk(s.payments)
  {
  }

  lemma PayKeeps(cfg: Config, s: State, actor: Actor, f: nat, expected: nat, amount: nat, now: Time)
    requires Inv(s)
    ensures Keeps(s, ProcessPayment(cfg, s, actor, f, expected, amount, now).0)
  {
    hide Keeps, Inv, Fees;
    var (t, reply) := ProcessPayment(cfg, s, actor, f, expected, amount, now);
    if reply.Ok? {
      InvCredits(s);
      PaymentFacts(s, t, f, t.envelopes[f], t.txs[|s.txs|]);
      PaymentKeeps(s, t, f, t.envelopes[f], t.txs[|s.txs|]);
    } else {
      Unchanged(s);
    }
  }

  lemma CreditKeeps(cfg: Config, s: State, actor: Actor, key: Key, r: CreditRequest, now: Time)
    requires Inv(s) && r.actor == actor.id
    ensures Keeps(s, RecordCredit(cfg, s, actor, key, r, now).0)
  {
    hide Keeps, Inv, Fees;
    var (t, reply) := RecordCredit(cfg, s, actor, key, r, now);
    if reply.Ok? {
      InvCredits(s);
      var f := r.filing;
      PaymentFacts(s, t, f, t.envelopes[f], t.txs[|s.txs|]);
      PaymentKeeps(s, t, f, t.envelopes[f], t.txs[|s.txs|]);
    } else {
      Unchanged(s);
    }
  }

  lemma ReverseKeeps(cfg: Config, s: State, actor: Actor, f: nat, p: nat, expected: nat, now: Time)
    requires Inv(s)
    ensures Keeps(s, ReverseCredit(cfg, s, actor, f, p, expected, now).0)
  {
    hide Keeps, Inv;
    var (t, reply) := ReverseCredit(cfg, s, actor, f, p, expected, now);
    if reply.Ok? {
      InvCredits(s);
      PaymentFacts(s, t, f, t.envelopes[f], t.txs[|s.txs|]);
      PaymentKeeps(s, t, f, t.envelopes[f], t.txs[|s.txs|]);
    } else {
      Unchanged(s);
    }
  }
}
