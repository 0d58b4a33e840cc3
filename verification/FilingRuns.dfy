/** Whole runs of the filing tables: what holds in every reachable state and between any two. */
module FilingRuns {
  import opened Common
  import opened Filings
  import opened FilingInvariants
  import opened FilingSteps
  import opened FilingRequests

  /** Requests about drafts, submissions and reviews. */
  predicate Filed(q: Request) {
    q.Create? || q.Update? || q.PutDocument? || q.DropDocument? || q.Submit? || q.Probe? || q.Record? || q.NewCalendar? || q.OrderDate?
  }

  lemma FiledKeeps(cfg: Config, s: State, q: Request)
    requires Inv(s) && Possible(s, q) && Filed(q)
    ensures Keeps(s, Apply(cfg, s, q).0)
  {
    hide Inv, Keeps;
    hide CreateFiling, UpdateDetails, UploadDocument, RemoveDocument, SubmitFiling, ProbeReview, RecordReview, RecordDateOrder,
         PublishCalendar, SubmitAssessment, ReviewAssessment;
    match q
    case Create(actor, key, data, place, participant) => CreateKeeps(s, actor, key, data, place, participant);
    case Update(actor, f, edit) => UpdateKeeps(s, actor, f, edit);
    case PutDocument(actor, f, key, objectKey, file, filename, confidential, now) =>
      UploadKeeps(s, actor, f, key, objectKey, file, filename, confidential, now);
    case DropDocument(actor, f, id, now) => RemoveKeeps(s, actor, f, id, now);
    case Submit(actor, f, key, token, place, participant, required, prints, now) =>
      SubmitKeeps(cfg, s, actor, f, key, token, place, participant, required, prints, SubmitAssessment(cfg, s, f, now), now);
    case Probe(actor, f, action, count, storage) => ProbeKeeps(s, actor, f, action, count, storage);
    case Record(actor, evidence, reason, place, cms, now) =>
      RecordKeeps(cfg, s, actor, evidence, reason, place, ReviewAssessment(cfg, s, evidence.filing), cms, now);
    case OrderDate(actor, f, expected, order, objectKey, file, now) => OrderKeeps(s, actor, f, expected, order, objectKey, file, now);
    case NewCalendar(actor, court, zone, from, through, closed) => CalendarKeeps(s, actor, court, zone, from, through, closed);
    case _ =>
  }

  lemma OtherKeeps(cfg: Config, s: State, q: Request)
    requires Inv(s) && Possible(s, q) && !Filed(q)
    ensures Keeps(s, Apply(cfg, s, q).0)
  {
    hide Inv, Keeps;
    hide RequestFeeReview, AssessFees, DecideWaiver, PrepareCopy, PublishCopy, WithholdDocument, ProcessPayment, RecordCredit, ReverseCredit;
    match q
    case AskFeeReview(actor, f, expected, reason, storage, now) => FeeReviewKeeps(s, actor, f, expected, reason, storage, now);
    case Assess(actor, f, expected, total, authority, storage, now) => AssessKeeps(s, actor, f, expected, total, authority, storage, now);
    case Waive(actor, f, expected, waiver, reason, due, order, now) => WaiveKeeps(s, actor, f, expected, waiver, reason, due, order, now);
    case Prepare(actor, id, objectKey, title, sha, size) => PrepareKeeps(s, actor, id, objectKey, title, sha, size);
    case Publish(actor, id, copyId, expected, now) => PublishKeeps(s, actor, id, copyId, expected, now);
    case Withhold(actor, id, expected, now) => WithholdKeeps(s, actor, id, expected, now);
    case Pay(actor, f, expected, amount, now) => PayKeeps(cfg, s, actor, f, expected, amount, now);
    case Credit(actor, key, credit, now) => CreditKeeps(cfg, s, actor, key, credit, now);
    case Reverse(actor, f, payment, expected, now) => ReverseKeeps(cfg, s, actor, f, payment, expected, now);
    case _ =>
  }

  lemma RequestKeeps(cfg: Config, s: State, q: Request)
    requires Inv(s) && Possible(s, q)
    ensures Keeps(s, Apply(cfg, s, q).0)
  {
    hide Inv, Keeps, Apply;
    if Filed(q) { FiledKeeps(cfg, s, q); } else { OtherKeeps(cfg, s, q); }
  }

  ghost predicate Step(cfg: Config, s: State, t: State) {
    exists q :: Possible(s, q) && t == Apply(cfg, s, q).0
  }

  ghost predicate Run(cfg: Config, r: seq<State>) {
    r != [] && r[0] == EMPTY && forall i | 0 <= i < |r| - 1 :: Step(cfg, r[i], r[i + 1])
  }

  lemma StepKeeps(cfg: Config, s: State, t: State)
    requires Inv(s) && Step(cfg, s, t)
    ensures Keeps(s, t)
  {
    hide Inv, Keeps, Apply;
    var q :| Possible(s, q) && t == Apply(cfg, s, q).0;
    RequestKeeps(cfg, s, q);
  }

  lemma {:induction false} RunInv(cfg: Config, r: seq<State>, i: nat)
    requires Run(cfg, r) && i < |r|
    ensures Inv(r[i])
  {
    hide Inv, Step, Grows;
    if i == 0 {
      EmptyInv();
    } else {
      RunInv(cfg, r, i - 1);
      StepKeeps(cfg, r[i - 1], r[i]);
    }
  }

  lemma DocsGrowFurther(s: State, t: State, u: State)
    requires Grows(s, t) && Grows(t, u) && DocsOk(s)
    ensures DocsGrow(s, u.docs, u.nextDoc)
  {
    forall id | id in s.docs && Safe(s, id) ensures id in u.docs {
      assert DocOk(s, id);
      SafeGrows(s, t, id);
    }
    forall id | id in u.docs && id < s.nextDoc ensures id in s.docs && DocGrows(s.docs[id], u.docs[id]) {
      assert DocGrows(t.docs[id], u.docs[id]) && DocGrows(s.docs[id], t.docs[id]);
    }
  }

  lemma RowsGrowFurther(s: State, t: State, u: State)
    requires Grows(s, t) && Grows(t, u)
    ensures EnvelopesGrow(s.envelopes, u.envelopes)
    ensures forall c | 0 <= c < |s.cases| :: CaseGrows(s.cases[c], u.cases[c])
    ensures forall p | 0 <= p < |s.payments| :: PaymentGrows(s.payments[p], u.payments[p])
  {
    assert forall f | 0 <= f < |s.envelopes| :: EnvGrows(s.envelopes[f], t.envelopes[f]) && EnvGrows(t.envelopes[f], u.envelopes[f]);
    assert forall c | 0 <= c < |s.cases| :: CaseGrows(s.cases[c], t.cases[c]) && CaseGrows(t.cases[c], u.cases[c]);
    assert forall p | 0 <= p < |s.payments| :: PaymentGrows(s.payments[p], t.payments[p]) && PaymentGrows(t.payments[p], u.payments[p]);
    hide DocsGrow;
  }

  lemma UploadsGrowFurther(s: State, t: State, u: State)
    requires Grows(s, t) && Grows(t, u) && UploadsOk(s)
    ensures UploadsGrow(s, u.uploads, u.docs)
  {
    hide EnvelopesGrow;
    assert forall k | k in s.uploads :: UploadOk(s, k);
  }

  lemma GrowsFurther(s: State, t: State, u: State)
    requires Grows(s, t) && Grows(t, u) && DocsOk(s) && UploadsOk(s)
    ensures Grows(s, u)
  {
    UploadsGrowFurther(s, t, u);
    DocsGrowFurther(s, t, u);
    RowsGrowFurther(s, t, u);
    hide EnvelopesGrow, DocsGrow, CaseGrows, PaymentGrows, UploadsGrow;
  }

  /** Nothing retained, numbered or keyed is lost between any two states of a run. */
  lemma {:induction false} RunGrows(cfg: Config, r: seq<State>, i: nat, j: nat)
    requires Run(cfg, r) && i <= j < |r|
    ensures Grows(r[i], r[j])
  {
    hide Inv, Step, Grows;
    if i == j {
      GrowsSelf(r[i]);
    } else {
      RunGrows(cfg, r, i, j - 1);
      RunInv(cfg, r, j - 1);
      StepKeeps(cfg, r[j - 1], r[j]);
      RunInv(cfg, r, i);
      InvDocs(r[i]);
      InvUploads(r[i]);
      GrowsFurther(r[i], r[j - 1], r[j]);
    }
  }

  // ---------------------------------------------------------------- receipts and dates

  lemma ReceiptsPrefix(a: seq<Tx>, b: seq<Tx>, f: nat)
    requires a <= b
    ensures Receipts(a, f) <= Receipts(b, f)
  {
    assert b == a + b[|a|..];
    ReceiptsAppend(a, b[|a|..], f);
  }

  /** The receipt a service of documents starts from. */
  predicate IsSource(s: State, f: nat, i: nat) {
    && f < |s.envelopes| && i < |s.txs| && s.txs[i].filing == f && s.txs[i].event.Receipt?
    && s.txs[i].submission == s.envelopes[f].submissions
  }

  lemma ReceiptPosition(txs: seq<Tx>, f: nat, i: nat)
    requires i < |txs| && txs[i].filing == f && txs[i].event.Receipt?
    ensures |Receipts(txs[..i], f)| < |Receipts(txs, f)| && Receipts(txs, f)[|Receipts(txs[..i], f)|] == txs[i]
    ensures |Receipts(txs[..i + 1], f)| == |Receipts(txs[..i], f)| + 1
  {
    assert txs[..i + 1][..i] == txs[..i];
    ReceiptsPrefix(txs[..i + 1], txs, f);
  }

  lemma {:induction false} ReceiptIndex(txs: seq<Tx>, f: nat, k: nat) returns (i: nat)
    requires k < |Receipts(txs, f)|
    ensures i < |txs| && txs[i].filing == f && txs[i].event.Receipt? && txs[i] == Receipts(txs, f)[k]
  {
    var n := |txs| - 1;
    if k < |Receipts(txs[..n], f)| {
      i := ReceiptIndex(txs[..n], f, k);
    } else {
      i := n;
    }
  }

  /** Receipts are numbered 1..n by the submission count, in order, each number once. */
  lemma ReceiptsNumbered(cfg: Config, r: seq<State>, x: nat, f: nat)
    requires Run(cfg, r) && x < |r| && f < |r[x].envelopes|
    ensures |Receipts(r[x].txs, f)| == r[x].envelopes[f].submissions
    ensures forall k | 0 <= k < |Receipts(r[x].txs, f)| :: Receipts(r[x].txs, f)[k].submission == k + 1
  {
    RunInv(cfg, r, x);
    hide Run;
    InvEnv(r[x], f);
  }

  /** A submitted filing has exactly one current source receipt. */
  lemma OneSource(cfg: Config, r: seq<State>, x: nat, f: nat) returns (i: nat)
    requires Run(cfg, r) && x < |r| && f < |r[x].envelopes| && r[x].envelopes[f].submissions > 0
    ensures IsSource(r[x], f, i) && forall j: nat | IsSource(r[x], f, j) :: j == i
  {
    hide Run;
    ReceiptsNumbered(cfg, r, x, f);
    var s := r[x];
    i := ReceiptIndex(s.txs, f, s.envelopes[f].submissions - 1);
    forall j: nat | IsSource(s, f, j) ensures j == i {
      ReceiptPosition(s.txs, f, i);
      ReceiptPosition(s.txs, f, j);
      if i < j {
        ReceiptsPrefix(s.txs[..i + 1], s.txs[..j], f);
      } else if j < i {
        ReceiptsPrefix(s.txs[..j + 1], s.txs[..i], f);
      }
    }
  }

  /** The filing time is the first receipt's, through any number of returns and resubmissions. */
  lemma FiledAtFirstReceipt(cfg: Config, r: seq<State>, i: nat, j: nat, f: nat)
    requires Run(cfg, r) && i <= j < |r| && f < |r[i].envelopes| && r[i].envelopes[f].submissions > 0
    ensures f < |r[j].envelopes| && Receipts(r[i].txs, f) != []
    ensures r[i].envelopes[f].filedAt == r[j].envelopes[f].filedAt == Some(Receipts(r[i].txs, f)[0].at)
  {
    RunInv(cfg, r, i);
    RunInv(cfg, r, j);
    RunGrows(cfg, r, i, j);
    hide Run;
    InvEnv(r[i], f);
    InvEnv(r[j], f);
    hide Inv;
    ReceiptsPrefix(r[i].txs, r[j].txs, f);
  }

  // ---------------------------------------------------------------- review

  /** An unchanged date version means the date, its basis and the status never changed in between. */
  lemma DateStands(cfg: Config, r: seq<State>, i: nat, k: nat, j: nat, f: nat)
    requires Run(cfg, r) && i <= k <= j < |r| && f < |r[i].envelopes|
    requires f < |r[j].envelopes| && r[i].envelopes[f].dateVersion == r[j].envelopes[f].dateVersion
    ensures f < |r[k].envelopes| && SameDate(r[i].envelopes[f], r[k].envelopes[f])
  {
    RunGrows(cfg, r, i, k);
    RunGrows(cfg, r, k, j);
    assert EnvGrows(r[i].envelopes[f], r[k].envelopes[f]) && EnvGrows(r[k].envelopes[f], r[j].envelopes[f]);
  }

  lemma SameReceiptsHeld(s: State, t: State, f: nat)
    requires f < |s.envelopes| && f < |t.envelopes| && EnvOk(s, f) && EnvOk(t, f) && s.txs <= t.txs
    requires !Editable(s.envelopes[f].status) && !Editable(t.envelopes[f].status) && s.envelopes[f].submissions == t.envelopes[f].submissions
    ensures HeldPrints(s, f) == HeldPrints(t, f)
  {
    ReceiptsPrefix(s.txs, t.txs, f);
    hide Receipts, HeldPrints, DateOk, FeeOk, CaseOk;
    assert Receipts(s.txs, f) == Receipts(t.txs, f);
  }

  /** With the same submission count and no editing status, the documents have the same fingerprints. */
  lemma DocumentsStand(cfg: Config, r: seq<State>, i: nat, j: nat, f: nat)
    requires Run(cfg, r) && i <= j < |r| && f < |r[i].envelopes| && f < |r[j].envelopes|
    requires !Editable(r[i].envelopes[f].status) && !Editable(r[j].envelopes[f].status)
    requires r[i].envelopes[f].submissions == r[j].envelopes[f].submissions
    ensures HeldPrints(r[i], f) == HeldPrints(r[j], f)
  {
    hide Run, Inv, EnvOk, HeldPrints;
    RunInv(cfg, r, i);
    RunInv(cfg, r, j);
    RunGrows(cfg, r, i, j);
    InvEnv(r[i], f);
    InvEnv(r[j], f);
    SameReceiptsHeld(r[i], r[j], f);
  }
}
