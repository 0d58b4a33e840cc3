/** Every locked section keeps the invariants of the filing tables. */
module FilingSteps {
  import opened Common
  import opened Filings
  import opened FilingInvariants

  // ---------------------------------------------------------------- current documents

  /** The filing's current documents are the same, with the same files. */
  ghost predicate SameHeld(s: State, t: State, f: nat) {
    && (forall id | IsCurrent(s.docs, f, id) :: IsCurrent(t.docs, f, id) && s.docs[id].file == t.docs[id].file)
    && (forall id | IsCurrent(t.docs, f, id) :: IsCurrent(s.docs, f, id))
  }

  /** Whatever changes a filing's current documents raises its fee version. */
  ghost predicate HeldOrRaised(s: State, t: State) {
    |s.envelopes| <= |t.envelopes| &&
    forall f | 0 <= f < |s.envelopes| :: SameHeld(s, t, f) || t.envelopes[f].feeVersion > s.envelopes[f].feeVersion
  }

  lemma {:induction false} SameCurrent(a: map<nat, Doc>, b: map<nat, Doc>, f: nat, n: nat)
    requires forall id: nat | id < n :: IsCurrent(a, f, id) <==> IsCurrent(b, f, id)
    ensures Current(a, f, n) == Current(b, f, n)
  {
    if n > 0 { SameCurrent(a, b, f, n - 1); }
  }

  lemma {:induction false} NoneAbove(docs: map<nat, Doc>, f: nat, n: nat, m: nat)
    requires n <= m && forall id | n <= id < m :: !IsCurrent(docs, f, id)
    ensures Current(docs, f, n) == Current(docs, f, m)
  {
    if n < m { NoneAbove(docs, f, n, m - 1); }
  }

  lemma HeldSame(s: State, t: State, f: nat)
    requires SameHeld(s, t, f) && s.nextDoc <= t.nextDoc && DocsOk(s)
    ensures CurrentOf(s, f) == CurrentOf(t, f) && HeldPrints(s, f) == HeldPrints(t, f)
  {
    SameCurrent(s.docs, t.docs, f, s.nextDoc);
    assert forall id | s.nextDoc <= id < t.nextDoc :: !IsCurrent(t.docs, f, id) by {
      hide Current;
      assert forall id | id in s.docs :: DocOk(s, id);
    }
    NoneAbove(t.docs, f, s.nextDoc, t.nextDoc);
    CurrentAre(s.docs, f, s.nextDoc);
    CurrentAre(t.docs, f, t.nextDoc);
  }

  // ---------------------------------------------------------------- receipts

  lemma {:induction false} ReceiptsAppend(txs: seq<Tx>, more: seq<Tx>, f: nat)
    ensures Receipts(txs + more, f) == Receipts(txs, f) + Receipts(more, f)
  {
    if more == [] {
      assert txs + more == txs;
    } else {
      var n := |more| - 1;
      assert (txs + more)[..|txs| + n] == txs + more[..n];
      ReceiptsAppend(txs, more[..n], f);
    }
  }

  lemma {:induction false} NoReceipts(more: seq<Tx>, f: nat)
    requires forall i | 0 <= i < |more| :: more[i].filing != f || !more[i].event.Receipt?
    ensures Receipts(more, f) == []
  {
    if more != [] { NoReceipts(more[..|more| - 1], f); }
  }

  lemma SameReceipts(s: State, t: State, f: nat)
    requires s.txs <= t.txs
    requires forall i | |s.txs| <= i < |t.txs| :: t.txs[i].filing != f || !t.txs[i].event.Receipt?
    ensures Receipts(t.txs, f) == Receipts(s.txs, f)
  {
    var more := t.txs[|s.txs|..];
    assert t.txs == s.txs + more;
    ReceiptsAppend(s.txs, more, f);
    NoReceipts(more, f);
  }

  // ---------------------------------------------------------------- parts of the invariant

  /** How one filing may differ after a section that records no submission. */
  ghost predicate Calm(s: State, t: State, f: nat) {
    && f < |s.envelopes| && Grows(s, t)
    && (forall i | |s.txs| <= i < |t.txs| :: t.txs[i].filing != f || !t.txs[i].event.Receipt?)
    && t.envelopes[f].submissions == s.envelopes[f].submissions
    && t.envelopes[f].filedAt == s.envelopes[f].filedAt && t.envelopes[f].submittedAt == s.envelopes[f].submittedAt
  }

  lemma NumberedKept(s: State, t: State, f: nat)
    requires Calm(s, t, f) && Numbered(s.envelopes[f], Receipts(s.txs, f))
    ensures Numbered(t.envelopes[f], Receipts(t.txs, f))
  {
    SameReceipts(s, t, f);
  }

  lemma DateKept(s: State, t: State, f: nat)
    requires f < |s.envelopes| && Grows(s, t) && DateOk(s, f) && DocsOk(s)
    requires t.envelopes[f].basis == s.envelopes[f].basis && t.envelopes[f].filingDate == s.envelopes[f].filingDate
    ensures DateOk(t, f)
  {
    if OrderedDate(s.envelopes[f]) {
      SafeGrows(s, t, s.envelopes[f].basis.value.order);
    }
  }

  lemma HeldKept(s: State, t: State, f: nat)
    requires Calm(s, t, f) && HeldOk(s, f) && DocsOk(s)
    requires Editable(t.envelopes[f].status) || (SameHeld(s, t, f) && !Editable(s.envelopes[f].status))
    ensures HeldOk(t, f)
  {
    SameReceipts(s, t, f);
    if !Editable(t.envelopes[f].status) { HeldSame(s, t, f); }
  }

  lemma FeeKept(s: State, t: State, f: nat)
    requires f < |s.envelopes| && Grows(s, t) && FeeOk(s, f) && DocsOk(s)
    requires t.envelopes[f].feeAssessment == s.envelopes[f].feeAssessment
    requires SameHeld(s, t, f) || t.envelopes[f].feeVersion > s.envelopes[f].feeVersion
    ensures FeeOk(t, f)
  {
    var a := s.envelopes[f].feeAssessment;
    assert EnvGrows(s.envelopes[f], t.envelopes[f]);
    if a.Some? {
      assert t.txs[a.value] == s.txs[a.value];
      if SameHeld(s, t, f) { HeldSame(s, t, f); }
    }
  }

  lemma CaseKept(s: State, t: State, f: nat)
    requires f < |s.envelopes| && Grows(s, t) && CaseOk(s, s.envelopes[f]) && t.envelopes[f].case_ == s.envelopes[f].case_
    requires t.envelopes[f].status == s.envelopes[f].status || !s.envelopes[f].status.Accepted?
    requires t.envelopes[f].status.Accepted? ==> s.envelopes[f].case_.Some?
    ensures CaseOk(t, t.envelopes[f])
  {
    assert EnvGrows(s.envelopes[f], t.envelopes[f]);
    var c := s.envelopes[f].case_;
    if c.Some? { assert CaseGrows(s.cases[c.value], t.cases[c.value]); }
  }

  /** A section that leaves a filing's date, case and assessment alone keeps its invariant. */
  lemma EnvKept(s: State, t: State, f: nat)
    requires Calm(s, t, f) && EnvOk(s, f) && DocsOk(s) && StatusOk(t.envelopes[f])
    requires t.envelopes[f].basis == s.envelopes[f].basis && t.envelopes[f].filingDate == s.envelopes[f].filingDate
    requires t.envelopes[f].feeAssessment == s.envelopes[f].feeAssessment && t.envelopes[f].case_ == s.envelopes[f].case_
    requires t.envelopes[f].status == s.envelopes[f].status || (Pending(s.envelopes[f].status) && !t.envelopes[f].status.Accepted?)
    requires SameHeld(s, t, f) || (Editable(s.envelopes[f].status) && t.envelopes[f].feeVersion > s.envelopes[f].feeVersion)
    ensures EnvOk(t, f)
  {
    NumberedKept(s, t, f);
    DateKept(s, t, f);
    HeldKept(s, t, f);
    FeeKept(s, t, f);
    CaseKept(s, t, f);
  }

  lemma EvidenceKept(s: State, t: State, ev: Evidence)
    requires EvidenceOk(s, ev) && Grows(s, t) && DocsOk(s) && EnvOk(s, ev.filing)
    requires Editable(s.envelopes[ev.filing].status) || SameHeld(s, t, ev.filing)
             || t.envelopes[ev.filing].dateVersion > s.envelopes[ev.filing].dateVersion
    ensures EvidenceOk(t, ev)
  {
    var f := ev.filing;
    assert EnvGrows(s.envelopes[f], t.envelopes[f]);
    if ev.dateVersion == t.envelopes[f].dateVersion && ev.prints.Some? {
      HeldSame(s, t, f);
      if OrderedDate(s.envelopes[f]) { SafeGrows(s, t, s.envelopes[f].basis.value.order); }
    }
  }

  lemma TxKept(s: State, t: State, tx: Tx)
    requires TxOk(s, tx) && Grows(s, t)
    ensures TxOk(t, tx)
  {
    assert EnvGrows(s.envelopes[tx.filing], t.envelopes[tx.filing]);
    if Manifested(tx.event) {
      forall k | 0 <= k < |tx.event.documents| ensures Kept(t, tx.filing, tx.event.documents[k]) {
        SafeGrows(s, t, tx.event.documents[k].id);
      }
    }
    if tx.event.CopyPublished? { SafeGrows(s, t, tx.event.copy.document); }
  }

  // ---------------------------------------------------------------- one filing at a time

  /** Rows of other filings are as they were. */
  ghost predicate OthersSame(s: State, docs: map<nat, Doc>, f: nat) {
    && (forall id | id in s.docs && s.docs[id].envelope != f :: id in docs && docs[id] == s.docs[id])
    && (forall id | id in docs && docs[id].envelope != f :: id in s.docs && docs[id] == s.docs[id])
  }

  /** The section touched one filing, and the history rows it added are sound. */
  ghost predicate Touch(s: State, t: State, f: nat) {
    && f < |s.envelopes| == |t.envelopes| && Grows(s, t) && OthersSame(s, t.docs, f)
    && (forall g | 0 <= g < |s.envelopes| && g != f :: t.envelopes[g] == s.envelopes[g])
    && (forall i | |s.txs| <= i < |t.txs| :: t.txs[i].filing == f && TxOk(t, t.txs[i]))
    && t.reviews == s.reviews && t.copies == s.copies
  }

  lemma OtherEnvKept(s: State, t: State, f: nat, g: nat)
    requires Touch(s, t, f) && g != f && g < |s.envelopes| && EnvOk(s, g) && DocsOk(s)
    ensures EnvOk(t, g) && SameHeld(s, t, g)
  {
    EnvKept(s, t, g);
  }

  lemma TouchHolds(s: State, t: State, f: nat)
    requires Touch(s, t, f) && (SameHeld(s, t, f) || t.envelopes[f].feeVersion > s.envelopes[f].feeVersion)
    ensures HeldOrRaised(s, t)
  {
    hide Grows, TxOk;
    forall g | 0 <= g < |s.envelopes| && g != f ensures SameHeld(s, t, g) { }
  }

  lemma OneFiling(s: State, t: State, f: nat)
    requires Inv(s) && Touch(s, t, f) && EnvOk(t, f) && DocsOk(t) && UploadsOk(t) && KeysOk(t)
    requires forall p | 0 <= p < |t.payments| :: PaymentOk(t, t.payments[p])
    requires Editable(s.envelopes[f].status) || SameHeld(s, t, f) || t.envelopes[f].dateVersion > s.envelopes[f].dateVersion
    ensures Inv(t)
  {
    hide TxOk, EnvOk, EvidenceOk, DocOk, KeysOk, UploadsOk, Safe;
    forall g | 0 <= g < |t.envelopes| ensures EnvOk(t, g) {
      if g != f { OtherEnvKept(s, t, f, g); }
    }
    forall i | 0 <= i < |t.txs| ensures TxOk(t, t.txs[i]) {
      if i < |s.txs| { TxKept(s, t, s.txs[i]); }
    }
    forall ev | ev in t.reviews ensures EvidenceOk(t, ev) {
      EvidenceFiling(s, ev);
      if ev.filing != f { OtherEnvKept(s, t, f, ev.filing); }
      EvidenceKept(s, t, ev);
    }
    forall c | 0 <= c < |t.copies| ensures 0 < t.copies[c].document < t.nextDoc && Safe(t, t.copies[c].document) {
      SafeGrows(s, t, s.copies[c].document);
    }
  }

  lemma EvidenceFiling(s: State, ev: Evidence)
    requires EvidenceOk(s, ev)
    ensures ev.filing < |s.envelopes|
  {
  }

  // ---------------------------------------------------------------- document rows

  lemma RetainDocs(s: State, f: nat, now: Time)
    requires DocsOk(s)
    ensures var docs := Retain(s.docs, CurrentOf(s, f), now); DocsGrow(s, docs, s.nextDoc) && OthersSame(s, docs, f)
  {
    CurrentAre(s.docs, f, s.nextDoc);
    hide Current, DocOk;
  }

  lemma RetainHolds(s: State, f: nat, now: Time)
    requires DocsOk(s)
    ensures var t := s.(docs := Retain(s.docs, CurrentOf(s, f), now)); DocsOk(t) && SameHeld(s, t, f)
  {
    hide Current;
    assert forall id | id in s.docs :: DocOk(s, id);
  }

  lemma AddDoc(s: State, f: nat, d: Doc)
    requires DocsOk(s) && f < |s.envelopes| && d.envelope == f && d.publicCopy.None?
    requires CourtType(d.file.docType) ==> d.retainedAt.Some?
    ensures var docs := s.docs[s.nextDoc := d];
            && DocsGrow(s, docs, s.nextDoc + 1) && OthersSame(s, docs, f) && DocsOk(s.(docs := docs, nextDoc := s.nextDoc + 1))
            && (CourtType(d.file.docType) ==> SameHeld(s, s.(docs := docs, nextDoc := s.nextDoc + 1), f))
  {
    assert forall id | id in s.docs :: DocOk(s, id);
  }

  lemma ChangeDoc(s: State, f: nat, id: nat, d: Doc)
    requires DocsOk(s) && id in s.docs && DocGrows(s.docs[id], d) && d.envelope == f
    ensures DocsGrow(s, s.docs[id := d], s.nextDoc) && OthersSame(s, s.docs[id := d], f)
    ensures d.removedAt == s.docs[id].removedAt ==> SameHeld(s, s.(docs := s.docs[id := d]), f)
  {
    hide DocOk;
  }

  lemma ChangeHolds(s: State, id: nat, d: Doc)
    requires DocsOk(s) && id in s.docs && DocGrows(s.docs[id], d)
    requires d.publicCopy.Some? ==> d.confidential && 0 < d.publicCopy.value <= |s.copies| && s.copies[d.publicCopy.value - 1].document == id
    ensures DocsOk(s.(docs := s.docs[id := d]))
  {
    assert DocOk(s, id);
    var t := s.(docs := s.docs[id := d]);
    assert forall j | j in t.docs && j != id :: DocOk(s, j) && t.docs[j] == s.docs[j];
  }

  lemma DeleteDoc(s: State, f: nat, id: nat)
    requires DocsOk(s) && id in s.docs && s.docs[id].envelope == f && !Safe(s, id)
    ensures DocsGrow(s, s.docs - {id}, s.nextDoc) && OthersSame(s, s.docs - {id}, f) && DocsOk(s.(docs := s.docs - {id}))
  {
    assert forall j | j in s.docs :: DocOk(s, j);
  }

  // ---------------------------------------------------------------- keys and payments

  lemma KeysKept(s: State, t: State)
    requires KeysOk(s) && Grows(s, t) && |t.envelopes| == |s.envelopes| && t.payments == s.payments
    requires forall i | |s.txs| <= i < |t.txs| :: t.txs[i].key.None?
    ensures KeysOk(t)
  {
    assert forall f | 0 <= f < |s.envelopes| :: EnvGrows(s.envelopes[f], t.envelopes[f]);
    hide DocsGrow, EnvGrows;
    assert forall i | 0 <= i < |s.txs| :: t.txs[i] == s.txs[i];
  }

  lemma UploadsKept(s: State, t: State)
    requires UploadsOk(s) && Grows(s, t) && t.uploads == s.uploads && DocsOk(s)
    requires forall id | id in s.docs :: id in t.docs
    ensures UploadsOk(t)
  {
    forall k | k in t.uploads ensures UploadOk(t, k) {
      assert UploadOk(s, k);
    }
  }

  lemma PaymentsKept(s: State, t: State)
    requires Inv(s) && Grows(s, t) && t.payments == s.payments
    ensures forall p | 0 <= p < |t.payments| :: PaymentOk(t, t.payments[p])
  {
    forall p | 0 <= p < |t.payments| ensures PaymentOk(t, t.payments[p]) {
      assert PaymentOk(s, s.payments[p]);
      assert EnvGrows(s.envelopes[s.payments[p].envelope], t.envelopes[s.payments[p].envelope]);
    }
  }

  /** A section that leaves uploads, payments and request keys alone. */
  lemma Quiet(s: State, t: State, f: nat)
    requires Inv(s) && Touch(s, t, f) && EnvOk(t, f) && DocsOk(t)
    requires t.uploads == s.uploads && t.payments == s.payments && forall i | |s.txs| <= i < |t.txs| :: t.txs[i].key.None?
    requires forall id | id in s.docs :: id in t.docs
    requires SameHeld(s, t, f)
    ensures Inv(t) && HeldOrRaised(s, t)
  {
    KeysKept(s, t);
    UploadsKept(s, t);
    PaymentsKept(s, t);
    TouchHolds(s, t, f);
    hide Inv, EnvOk, DocsOk, KeysOk, UploadsOk;
    OneFiling(s, t, f);
  }

  lemma WithTxTouch(s: State, f: nat, e: Envelope, docs: map<nat, Doc>, nextDoc: nat, more: seq<Tx>)
    requires f < |s.envelopes| && EnvGrows(s.envelopes[f], e) && DocsGrow(s, docs, nextDoc) && OthersSame(s, docs, f)
    requires forall i | 0 <= i < |more| :: more[i].filing == f && TxOk(WithTx(s, f, e, docs, nextDoc, more), more[i])
    ensures Touch(s, WithTx(s, f, e, docs, nextDoc, more), f)
  {
    hide TxOk, DocsGrow, OthersSame, EnvGrows;
    EnvSame(s);
  }

  lemma EnvSame(s: State)
    ensures forall g | 0 <= g < |s.envelopes| :: EnvGrows(s.envelopes[g], s.envelopes[g])
    ensures forall c | 0 <= c < |s.cases| :: CaseGrows(s.cases[c], s.cases[c])
  {
  }

  /** The same section with its effect on uploads, payments or cases. */
  lemma TouchMore(s: State, t: State, u: State, f: nat)
    requires Touch(s, t, f) && u == t.(uploads := u.uploads, payments := u.payments, cases := u.cases)
    requires |s.cases| <= |u.cases| && forall c | 0 <= c < |s.cases| :: CaseGrows(s.cases[c], u.cases[c])
    requires |s.payments| <= |u.payments| && forall p | 0 <= p < |s.payments| :: PaymentGrows(s.payments[p], u.payments[p])
    requires UploadsGrow(s, u.uploads, u.docs)
    ensures Touch(s, u, f)
  {
    hide EnvGrows, OthersSame, CaseGrows;
    forall i | |s.txs| <= i < |u.txs| ensures u.txs[i].filing == f && TxOk(u, u.txs[i]) {
      SameTx(t, u, t.txs[i]);
    }
  }

  lemma SameTx(t: State, u: State, tx: Tx)
    requires TxOk(t, tx) && u == t.(uploads := u.uploads, payments := u.payments, cases := u.cases)
    ensures TxOk(u, tx)
  {
    if Manifested(tx.event) {
      assert forall k | 0 <= k < |tx.event.documents| :: Kept(t, tx.filing, tx.event.documents[k]) ==> Kept(u, tx.filing, tx.event.documents[k]);
    }
  }
}
