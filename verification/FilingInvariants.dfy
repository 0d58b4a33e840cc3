/**
 What every locked section keeps: rows a receipt names are never lost or changed, receipts are
 numbered and dated, dates rest on retained orders, assessments name the current documents,
 request keys are used once, and gathered evidence stays true while its date version stands.
 */
module FilingInvariants {
  import opened Common
  import opened Filings

  // ---------------------------------------------------------------- what only grows

  /** A document no removal can delete. */
  predicate Safe(s: State, id: nat) {
    && id in s.docs && s.docs[id].envelope < |s.envelopes|
    && (s.docs[id].retainedAt.Some? || s.envelopes[s.docs[id].envelope].submittedAt.Some?)
  }

  /** Everything about the filing date, and the version that stands for it. */
  predicate SameDate(a: Envelope, b: Envelope) {
    a.basis == b.basis && a.filingDate == b.filingDate && a.submissions == b.submissions && a.status == b.status
  }

  predicate EnvGrows(a: Envelope, b: Envelope) {
    && a.court == b.court && a.caseType == b.caseType && a.filer == b.filer && a.filingType == b.filingType
    && a.creationKey == b.creationKey && a.creation == b.creation
    && (a.submittedAt.Some? ==> b.submittedAt.Some?) && (a.case_.Some? ==> a.case_ == b.case_)
    && a.submissions <= b.submissions && a.feeVersion <= b.feeVersion && a.paymentVersion <= b.paymentVersion
    && a.dateVersion <= b.dateVersion && (a.dateVersion == b.dateVersion ==> SameDate(a, b))
  }

  predicate DocGrows(a: Doc, b: Doc) {
    && a.envelope == b.envelope && a.key == b.key && a.file == b.file && a.uploadedAt == b.uploadedAt
    && (a.retainedAt.Some? ==> a.retainedAt == b.retainedAt) && (a.removedAt.Some? ==> a.removedAt == b.removedAt)
    && (a.confidential ==> b.confidential) && a.accessVersion <= b.accessVersion
    && (a.accessVersion == b.accessVersion ==> a.confidential == b.confidential && a.publicCopy == b.publicCopy)
  }

  ghost predicate DocsGrow(s: State, docs: map<nat, Doc>, nextDoc: nat) {
    && s.nextDoc <= nextDoc
    && (forall id | id in s.docs && Safe(s, id) :: id in docs)
    && (forall id | id in docs && id < s.nextDoc :: id in s.docs && DocGrows(s.docs[id], docs[id]))
  }

  predicate CaseGrows(a: Case, b: Case) {
    a.court == b.court && a.caseType == b.caseType && a.openedBy == b.openedBy && a.dateVersion <= b.dateVersion
  }

  predicate PaymentGrows(a: Payment, b: Payment) {
    a == b || (a.external.Some? && b == a.(status := Reversed))
  }

  predicate UploadGrows(a: Upload, b: Upload) {
    a == b || b == a.(document := None)
  }

  /** An upload request is kept, and keeps naming its document while that row exists. */
  ghost predicate UploadsGrow(s: State, uploads: map<(nat, Key), Upload>, docs: map<nat, Doc>) {
    forall k | k in s.uploads ::
      && k in uploads && UploadGrows(s.uploads[k], uploads[k])
      && (s.uploads[k].document.Some? && s.uploads[k].document.value in docs ==> uploads[k] == s.uploads[k])
  }

  ghost predicate EnvelopesGrow(a: seq<Envelope>, b: seq<Envelope>) {
    |a| <= |b| && forall f | 0 <= f < |a| :: EnvGrows(a[f], b[f])
  }

  /** Nothing retained, numbered or keyed is lost or changed from one state to a later one. */
  ghost predicate Grows(s: State, t: State) {
    && EnvelopesGrow(s.envelopes, t.envelopes)
    && DocsGrow(s, t.docs, t.nextDoc)
    && s.copies <= t.copies && s.txs <= t.txs
    && (|s.cases| <= |t.cases| && forall c | 0 <= c < |s.cases| :: CaseGrows(s.cases[c], t.cases[c]))
    && (|s.payments| <= |t.payments| && forall p | 0 <= p < |s.payments| :: PaymentGrows(s.payments[p], t.payments[p]))
    && UploadsGrow(s, t.uploads, t.docs)
    && s.reviews <= t.reviews && s.calendars <= t.calendars
  }

  lemma SafeGrows(s: State, t: State, id: nat)
    requires Grows(s, t) && Safe(s, id) && id < s.nextDoc
    ensures Safe(t, id) && DocGrows(s.docs[id], t.docs[id])
  {
    assert EnvGrows(s.envelopes[s.docs[id].envelope], t.envelopes[s.docs[id].envelope]);
  }

  // ---------------------------------------------------------------- invariants

  predicate DocOk(s: State, id: nat)
    requires id in s.docs
  {
    var d := s.docs[id];
    && 0 < id < s.nextDoc && d.envelope < |s.envelopes|
    && (CourtType(d.file.docType) ==> d.retainedAt.Some?)
    && (d.publicCopy.Some? ==> d.confidential && 0 < d.publicCopy.value <= |s.copies|
                               && s.copies[d.publicCopy.value - 1].document == id)
  }

  ghost predicate DocsOk(s: State) {
    0 < s.nextDoc && forall id | id in s.docs :: DocOk(s, id)
  }

  predicate Kept(s: State, f: nat, e: Entry) {
    && 0 < e.id < s.nextDoc && Safe(s, e.id)
    && s.docs[e.id].envelope == f && s.docs[e.id].file == e.file && s.docs[e.id].uploadedAt == e.uploadedAt
  }

  ghost predicate AllKept(s: State, f: nat, m: seq<Entry>) {
    m != [] && forall k | 0 <= k < |m| :: Kept(s, f, m[k])
  }

  predicate CopyKept(s: State, f: nat, c: CopyEntry) {
    && 0 < c.id <= |s.copies| && c == CopyEntryOf(s, c.id)
    && 0 < c.document < s.nextDoc && Safe(s, c.document) && s.docs[c.document].envelope == f
  }

  /** Events whose details carry a document manifest. */
  predicate Manifested(e: Event) {
    e.Receipt? || e.FeeReviewRequested? || e.FeeAssessed? || e.WaiverDecided? || e.DateOrdered?
  }

  /** What a receipt says about its destination still holds. */
  predicate SameDestination(e: Envelope, r: Event)
    requires r.Receipt?
  {
    && r.court == e.court && r.filingType == e.filingType && r.service == e.filingType.ServiceOnly?
    && (!e.filingType.Initial? ==> e.case_.Some?) && (!e.filingType.Initial? ==> r.case_ == e.case_)
  }

  ghost predicate TxOk(s: State, tx: Tx) {
    && tx.filing < |s.envelopes|
    && (Manifested(tx.event) ==> AllKept(s, tx.filing, tx.event.documents))
    && (tx.event.Receipt? ==> SameDestination(s.envelopes[tx.filing], tx.event))
    && (tx.event.CopyPublished? ==> CopyKept(s, tx.filing, tx.event.copy) && tx.event.copy.document == tx.event.document)
  }

  /** The submission receipts of a filing, in order. */
  function Receipts(txs: seq<Tx>, f: nat): seq<Tx> {
    if txs == [] then []
    else
      var last := txs[|txs| - 1];
      Receipts(txs[..|txs| - 1], f) + if last.filing == f && last.event.Receipt? then [last] else []
  }

  /** Receipts are numbered 1..n; the first fixes the filing time and the last the submission time. */
  ghost predicate Numbered(e: Envelope, receipts: seq<Tx>) {
    && |receipts| == e.submissions
    && (forall k | 0 <= k < |receipts| :: receipts[k].submission == k + 1 && receipts[k].event.Receipt?)
    && e.filedAt == (if receipts == [] then None else Some(receipts[0].at))
    && e.submittedAt == (if receipts == [] then None else Some(receipts[|receipts| - 1].at))
  }

  predicate StatusOk(e: Envelope) {
    && (e.status.Draft? <==> e.submissions == 0)
    && (e.filingType.ServiceOnly? ==> e.status.Draft? || e.status.Served?)
    && (e.status.Served? ==> e.filingType.ServiceOnly?)
  }

  predicate CaseOk(s: State, e: Envelope) {
    && (e.case_.None? ==> e.filingType.Initial? && !e.status.Accepted?)
    && (e.case_.Some? ==> e.case_.value < |s.cases| && s.cases[e.case_.value].court == e.court
                          && s.cases[e.case_.value].caseType == e.caseType)
    && (e.filingType.Initial? && e.case_.Some? ==> e.status.Accepted?)
  }

  predicate DateOk(s: State, f: nat)
    requires f < |s.envelopes|
  {
    var e := s.envelopes[f];
    && e.filingDate == (if e.basis.None? then None else BasisDate(e.basis.value))
    && (OrderedDate(e) ==> OrderOf(s, f) == Some(e.basis.value.order) && e.basis.value.order < s.nextDoc)
  }

  /** The fingerprints of a filing's current documents. */
  function HeldPrints(s: State, f: nat): seq<Print> {
    CurrentAre(s.docs, f, s.nextDoc);
    Prints(s.docs, CurrentOf(s, f))
  }

  /** While a filing cannot be edited its documents are those of its latest receipt. */
  ghost predicate HeldOk(s: State, f: nat)
    requires f < |s.envelopes|
  {
    var receipts := Receipts(s.txs, f);
    (!Editable(s.envelopes[f].status) && receipts != [] && receipts[|receipts| - 1].event.Receipt?) ==>
      HeldPrints(s, f) == EntryPrints(receipts[|receipts| - 1].event.documents)
  }

  /** A fee assessment of the current version lists exactly the current documents. */
  ghost predicate FeeOk(s: State, f: nat)
    requires f < |s.envelopes|
  {
    var e := s.envelopes[f];
    e.feeAssessment.Some? ==>
      && AssessmentOf(s, f).Some?
      && s.txs[e.feeAssessment.value].event.version <= e.feeVersion
      && (s.txs[e.feeAssessment.value].event.version == e.feeVersion ==>
            HeldPrints(s, f) == EntryPrints(s.txs[e.feeAssessment.value].event.documents))
  }

  ghost predicate EnvOk(s: State, f: nat)
    requires f < |s.envelopes|
  {
    && Numbered(s.envelopes[f], Receipts(s.txs, f)) && StatusOk(s.envelopes[f]) && CaseOk(s, s.envelopes[f])
    && DateOk(s, f) && HeldOk(s, f) && FeeOk(s, f)
  }

  /** Evidence is never ahead of its filing, and is still true while the date version stands. */
  ghost predicate EvidenceOk(s: State, ev: Evidence) {
    && ev.filing < |s.envelopes|
    && ev.dateVersion <= s.envelopes[ev.filing].dateVersion
    && (ev.action.Accept? <==> ev.prints.Some?)
    && (ev.dateVersion == s.envelopes[ev.filing].dateVersion ==>
          && Pending(s.envelopes[ev.filing].status) && ev.count == s.envelopes[ev.filing].submissions
          && ev.ordered == OrderedDate(s.envelopes[ev.filing])
          && (ev.prints.Some? ==> ev.prints.value == LockedPrints(s, ev.filing, ev.ordered)))
  }

  /** Each request key names one filing, one upload, one submission or one credit. */
  ghost predicate KeysOk(s: State) {
    && (forall f, g | 0 <= f < g < |s.envelopes| ::
          !(s.envelopes[f].filer == s.envelopes[g].filer && s.envelopes[f].creationKey == s.envelopes[g].creationKey))
    && (forall i, j | 0 <= i < j < |s.txs| ::
          s.txs[i].key.Some? ==> !(s.txs[i].filing == s.txs[j].filing && s.txs[i].key == s.txs[j].key))
    && (forall p, q | 0 <= p < q < |s.payments| && s.payments[p].external.Some? && s.payments[q].external.Some? ::
          && s.payments[p].external.value.key != s.payments[q].external.value.key
          && (s.payments[p].status.Completed? && s.payments[q].status.Completed? ==>
                s.payments[p].external.value.receipt != s.payments[q].external.value.receipt))
  }

  predicate UploadOk(s: State, k: (nat, Key))
    requires k in s.uploads
  {
    var u := s.uploads[k];
    && k.0 < |s.envelopes|
    && (u.document.Some? ==> 0 < u.document.value < s.nextDoc && u.document.value in s.docs
                             && s.docs[u.document.value].envelope == k.0
                             && s.docs[u.document.value].file.sha == u.fingerprint.sha
                             && s.docs[u.document.value].file.size == u.fingerprint.size)
  }

  ghost predicate UploadsOk(s: State) {
    && (forall k | k in s.uploads :: UploadOk(s, k))
    && (forall k, l | k in s.uploads && l in s.uploads && k != l ::
          s.uploads[k].document.Some? ==> s.uploads[k].document != s.uploads[l].document)
  }

  predicate PaymentOk(s: State, p: Payment) {
    && p.envelope < |s.envelopes| && p.payer == s.envelopes[p.envelope].filer && p.amount > 0
    && (p.external.None? ==> p.status.Completed? && p.simulated)
    && (p.external.Some? ==> p.external.value.request.filing == p.envelope && p.external.value.request.amount == p.amount)
  }

  ghost predicate CopiesOk(s: State) {
    forall c | 0 <= c < |s.copies| :: 0 < s.copies[c].document < s.nextDoc && Safe(s, s.copies[c].document)
  }

  ghost predicate Inv(s: State) {
    && DocsOk(s) && CopiesOk(s) && UploadsOk(s) && KeysOk(s)
    && (forall i | 0 <= i < |s.txs| :: TxOk(s, s.txs[i]))
    && (forall f | 0 <= f < |s.envelopes| :: EnvOk(s, f))
    && (forall ev | ev in s.reviews :: EvidenceOk(s, ev))
    && (forall p | 0 <= p < |s.payments| :: PaymentOk(s, s.payments[p]))
  }

  lemma EmptyInv()
    ensures Inv(EMPTY)
  {
  }
}
