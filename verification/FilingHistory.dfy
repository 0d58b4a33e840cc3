/**
 The append-only history tells a filing's state: replaying its rows from an empty draft gives every
 field that a submission, review, fee decision, date order or payment sets. From this follow what
 each decision leaves behind and how long it stands.
 */
module FilingHistory {
  import opened Common
  import opened Filings
  import opened FilingInvariants
  import opened FilingSteps
  import opened FilingRequests
  import opened FilingRuns

  // ---------------------------------------------------------------- replaying the history

  /** What the history of a filing tells. */
  datatype Told = Told(status: Status, basis: Option<Basis>, review: Option<Review>, cmsError: Option<string>,
                       granted: Option<bool>, due: Option<nat>, referredAt: Option<Time>, assessment: Option<nat>,
                       payment: Option<nat>, paymentVersion: nat, dateVersion: nat,
                       submissions: nat, filedAt: Option<Time>, submittedAt: Option<Time>)

  const UNTOLD := Told(Draft, None, None, None, None, None, None, None, None, 0, 0, 0, None, None)

  function View(e: Envelope): Told {
    Told(e.status, e.basis, e.review, e.cmsError, e.waiverGranted, e.waiverDue, e.waiverReferredAt, e.feeAssessment,
         e.payment, e.paymentVersion, e.dateVersion, e.submissions, e.filedAt, e.submittedAt)
  }

  /** What row `i` adds to what the rows before it told. */
  function Next(t: Told, i: nat, tx: Tx): Told {
    match tx.event
    case Receipt(service, _, _, _, basis, _, _) =>
      t.(status := if service then Served else Submitted, basis := basis, review := None, cmsError := None,
         dateVersion := t.dateVersion + 1, submissions := t.submissions + 1,
         filedAt := if t.filedAt.Some? then t.filedAt else Some(tx.at), submittedAt := Some(tx.at))
    case Decided(status, note) =>
      t.(status := status, review := Some(Review(tx.actor, tx.at, note)), dateVersion := t.dateVersion + 1,
         cmsError := if status.Accepted? then None else t.cmsError)
    case CmsFailed(error) =>
      t.(status := UnderReview, review := Some(Review(tx.actor, tx.at, None)), dateVersion := t.dateVersion + 1, cmsError := Some(error))
    case DateAssessed(_, basis) => t.(basis := Some(basis))
    case DateOrdered(_, _, basis, _) => t.(basis := Some(basis), dateVersion := t.dateVersion + 1)
    case WaiverDecided(granted, due, _) => t.(granted := Some(granted), due := Some(due))
    case WaiverReferred => t.(referredAt := Some(tx.at))
    case FeeAssessed(_, _, _, _, _) => t.(assessment := Some(i))
    case PaymentRecorded(payment, _, _) => t.(payment := Some(payment), paymentVersion := t.paymentVersion + 1)
    case CreditRecorded(payment, _, _) => t.(payment := Some(payment), paymentVersion := t.paymentVersion + 1)
    case CreditReversed(_, _, _) => t.(paymentVersion := t.paymentVersion + 1)
    case FeeReviewRequested(_, _) => t
    case CopyPublished(_, _) => t
    case Withheld(_, _) => t
  }

  function Replay(txs: seq<Tx>, f: nat): Told {
    if txs == [] then UNTOLD
    else
      var n := |txs| - 1;
      var before := Replay(txs[..n], f);
      if txs[n].filing == f then Next(before, n, txs[n]) else before
  }

  /** The rows from `n` on, all of one filing, added to what was told. */
  function Steps(t: Told, txs: seq<Tx>, n: nat): Told {
    if |txs| <= n then t
    else Next(Steps(t, txs[..|txs| - 1], n), |txs| - 1, txs[|txs| - 1])
  }

  lemma {:induction false} ReplaySteps(txs: seq<Tx>, n: nat, f: nat)
    requires n <= |txs| && forall i | n <= i < |txs| :: txs[i].filing == f
    ensures Replay(txs, f) == Steps(Replay(txs[..n], f), txs, n)
  {
    if n == |txs| {
      assert txs[..n] == txs;
    } else {
      ReplaySteps(txs[..|txs| - 1], n, f);
      assert txs[..|txs| - 1][..n] == txs[..n];
    }
  }

  lemma {:induction false} ReplayOthers(txs: seq<Tx>, n: nat, f: nat)
    requires n <= |txs| && forall i | n <= i < |txs| :: txs[i].filing != f
    ensures Replay(txs, f) == Replay(txs[..n], f)
  {
    if n == |txs| {
      assert txs[..n] == txs;
    } else {
      ReplayOthers(txs[..|txs| - 1], n, f);
      assert txs[..|txs| - 1][..n] == txs[..n];
    }
  }

  // ---------------------------------------------------------------- who writes which row

  /** Rows the filer writes; every other row is a decision about the filing. */
  predicate FilersOwn(e: Event) {
    e.Receipt? || e.FeeReviewRequested? || e.PaymentRecorded?
  }

  /** The author fits the row, refusals carry a reason, and a receipt is issued only with the fee obligation met. */
  predicate RowFits(tx: Tx, filer: nat) {
    && (FilersOwn(tx.event) <==> tx.actor == filer)
    && (tx.event.Decided? ==> (tx.event.status.Accepted? && tx.event.note.None?)
                              || ((tx.event.status.Rejected? || tx.event.status.Returned?) && tx.event.note.Some? && tx.event.note.value != ""))
    && (tx.event.Receipt? ==> tx.event.fees.obligationMet)
  }

  ghost predicate Telling(s: State) {
    && (forall f | 0 <= f < |s.envelopes| :: View(s.envelopes[f]) == Replay(s.txs, f))
    && (forall i | 0 <= i < |s.txs| :: s.txs[i].filing < |s.envelopes| && RowFits(s.txs[i], s.envelopes[s.txs[i].filing].filer))
  }

  /** One filing moved on by exactly the rows added. */
  ghost predicate Follows(s: State, t: State, f: nat) {
    && s.txs <= t.txs && f < |s.envelopes| == |t.envelopes|
    && (forall g | 0 <= g < |s.envelopes| && g != f :: t.envelopes[g] == s.envelopes[g])
    && t.envelopes[f].filer == s.envelopes[f].filer
    && (forall i | |s.txs| <= i < |t.txs| :: t.txs[i].filing == f && RowFits(t.txs[i], s.envelopes[f].filer))
    && View(t.envelopes[f]) == Steps(View(s.envelopes[f]), t.txs, |s.txs|)
  }

  lemma FollowsTells(s: State, t: State, f: nat)
    requires Telling(s) && Follows(s, t, f)
    ensures Telling(t)
  {
    hide RowFits, Steps;
    assert t.txs[..|s.txs|] == s.txs;
    forall g | 0 <= g < |t.envelopes| ensures View(t.envelopes[g]) == Replay(t.txs, g) {
      if g == f { ReplaySteps(t.txs, |s.txs|, f); } else { ReplayOthers(t.txs, |s.txs|, g); }
    }
  }

  lemma NoRow(v: Told, txs: seq<Tx>)
    ensures Steps(v, txs, |txs|) == v
  {
  }

  lemma OneRow(v: Told, txs: seq<Tx>, tx: Tx)
    ensures Steps(v, txs + [tx], |txs|) == Next(v, |txs|, tx)
  {
    assert (txs + [tx])[..|txs|] == txs;
  }

  lemma TwoRows(v: Told, txs: seq<Tx>, a: Tx, b: Tx)
    ensures Steps(v, txs + [a, b], |txs|) == Next(Next(v, |txs|, a), |txs| + 1, b)
  {
    assert (txs + [a, b])[..|txs| + 1] == txs + [a];
    OneRow(v, txs, a);
  }

  // ---------------------------------------------------------------- request by request

  lemma NothingFollows(s: State, t: State, f: nat)
    requires f < |s.envelopes| == |t.envelopes| && t.txs == s.txs && View(t.envelopes[f]) == View(s.envelopes[f])
    requires t.envelopes[f].filer == s.envelopes[f].filer && forall g | 0 <= g < |s.envelopes| && g != f :: t.envelopes[g] == s.envelopes[g]
    ensures Follows(s, t, f)
  {
    NoRow(View(s.envelopes[f]), s.txs);
  }

  lemma RowFollows(s: State, t: State, f: nat, e: Envelope, tx: Tx)
    requires f < |s.envelopes| && t.envelopes == s.envelopes[f := e] && t.txs == s.txs + [tx] && e.filer == s.envelopes[f].filer
    requires tx.filing == f && RowFits(tx, e.filer) && View(e) == Next(View(s.envelopes[f]), |s.txs|, tx)
    ensures Follows(s, t, f)
  {
    hide RowFits, Next, Steps;
    OneRow(View(s.envelopes[f]), s.txs, tx);
  }

  lemma UpdateFollows(s: State, actor: Actor, f: nat, edit: Edit)
    requires UpdateDetails(s, actor, f, edit).1 == Ok
    ensures Follows(s, UpdateDetails(s, actor, f, edit).0, f)
  {
    hide Follows;
    NothingFollows(s, UpdateDetails(s, actor, f, edit).0, f);
  }

  lemma UploadFollows(s: State, actor: Actor, f: nat, key: Key, objectKey: string, file: File, filename: string, confidential: bool, now: Time)
    requires UploadDocument(s, actor, f, key, objectKey, file, filename, confidential, now).1 == Ok
    ensures Follows(s, UploadDocument(s, actor, f, key, objectKey, file, filename, confidential, now).0, f)
  {
    hide Follows;
    NothingFollows(s, UploadDocument(s, actor, f, key, objectKey, file, filename, confidential, now).0, f);
  }

  lemma RemoveFollows(s: State, actor: Actor, f: nat, id: nat, now: Time)
    requires RemoveDocument(s, actor, f, id, now).1 == Ok
    ensures Follows(s, RemoveDocument(s, actor, f, id, now).0, f)
  {
    hide Follows, Forget;
    NothingFollows(s, RemoveDocument(s, actor, f, id, now).0, f);
  }

  lemma SubmitChecked(cfg: Config, s: State, actor: Actor, f: nat, key: Option<Key>, token: SubmissionToken,
                      place: Option<Place>, participant: bool, required: bool)
    requires SubmitCheck(cfg, s, actor, f, key, token, place, participant, required) == Ok
    ensures f < |s.envelopes| && s.envelopes[f].filer == actor.id && Fees(cfg, s, f).obligationMet
  {
    hide Fees, SubmissionTokenOf, Complete, KeyUsed, DestinationError;
  }

  lemma SubmitFollows(cfg: Config, s: State, actor: Actor, f: nat, key: Option<Key>, token: SubmissionToken, place: Option<Place>,
                      participant: bool, required: bool, prints: seq<Print>, assessed: Assessment, now: Time)
    requires Inv(s) && SubmitFiling(cfg, s, actor, f, key, token, place, participant, required, prints, assessed, now).1 == Ok
    ensures Follows(s, SubmitFiling(cfg, s, actor, f, key, token, place, participant, required, prints, assessed, now).0, f)
  {
    hide Inv, Follows, SubmitCheck, Fees, Current, Retain, Prints, Manifest;
    var t := SubmitFiling(cfg, s, actor, f, key, token, place, participant, required, prints, assessed, now).0;
    SubmitChecked(cfg, s, actor, f, key, token, place, participant, required);
    NumberedAt(s, f);
    RowFollows(s, t, f, t.envelopes[f], t.txs[|s.txs|]);
  }

  lemma AcceptFollows(s: State, ev: Evidence, actor: Actor, assessed: Assessment, cms: CmsResult, now: Time)
    requires ev.filing < |s.envelopes| && s.envelopes[ev.filing].filer != actor.id
    requires OrElse(s.envelopes[ev.filing].filedAt, s.envelopes[ev.filing].submittedAt).Some?
    ensures Follows(s, Accepting(s, ev, actor, assessed, cms, now), ev.filing)
  {
    var t, f := Accepting(s, ev, actor, assessed, cms, now), ev.filing;
    if |t.txs| == |s.txs| + 1 {
      hide Follows;
      RowFollows(s, t, f, t.envelopes[f], t.txs[|s.txs|]);
    } else {
      hide Steps;
      TwoRows(View(s.envelopes[f]), s.txs, t.txs[|s.txs|], t.txs[|s.txs| + 1]);
      assert t.txs == s.txs + [t.txs[|s.txs|], t.txs[|s.txs| + 1]];
    }
  }

  lemma RecordFollows(cfg: Config, s: State, actor: Actor, ev: Evidence, reason: string, place: Option<Place>,
                      assessed: Assessment, cms: CmsResult, now: Time)
    requires ev.filing < |s.envelopes| && RecordReview(cfg, s, actor, ev, reason, place, assessed, cms, now).1 == Ok
    ensures Follows(s, RecordReview(cfg, s, actor, ev, reason, place, assessed, cms, now).0, ev.filing)
  {
    hide LockedPrints, DestinationError, Follows, Accepting;
    var t := RecordReview(cfg, s, actor, ev, reason, place, assessed, cms, now).0;
    if ev.action.Accept? {
      AcceptFollows(s, ev, actor, assessed, cms, now);
    } else {
      RowFollows(s, t, ev.filing, t.envelopes[ev.filing], t.txs[|s.txs|]);
    }
  }

  lemma FeeReviewFollows(s: State, actor: Actor, f: nat, expected: nat, reason: string, storage: Storage, now: Time)
    requires RequestFeeReview(s, actor, f, expected, reason, storage, now).1 == Ok
    ensures Follows(s, RequestFeeReview(s, actor, f, expected, reason, storage, now).0, f)
  {
    hide Follows, Current, Retain, Manifest;
    var t := RequestFeeReview(s, actor, f, expected, reason, storage, now).0;
    RowFollows(s, t, f, t.envelopes[f], t.txs[|s.txs|]);
  }

  lemma AssessFollows(s: State, actor: Actor, f: nat, expected: nat, total: nat, authority: string, storage: Storage, now: Time)
    requires AssessFees(s, actor, f, expected, total, authority, storage, now).1 == Ok
    ensures Follows(s, AssessFees(s, actor, f, expected, total, authority, storage, now).0, f)
  {
    hide Follows, Current, Retain, Manifest, AssessmentOf;
    var t := AssessFees(s, actor, f, expected, total, authority, storage, now).0;
    RowFollows(s, t, f, t.envelopes[f], t.txs[|s.txs|]);
  }

  lemma WaiveFollows(s: State, actor: Actor, f: nat, expected: nat, waiver: WaiverAction, reason: string, due: Option<nat>,
                     order: Option<(string, File)>, now: Time)
    requires DecideWaiver(s, actor, f, expected, waiver, reason, due, order, now).1 == Ok
    ensures Follows(s, DecideWaiver(s, actor, f, expected, waiver, reason, due, order, now).0, f)
  {
    hide Follows;
    var t := DecideWaiver(s, actor, f, expected, waiver, reason, due, order, now).0;
    RowFollows(s, t, f, t.envelopes[f], t.txs[|s.txs|]);
  }

  lemma OrderFollows(s: State, actor: Actor, f: nat, expected: nat, order: DateOrder, objectKey: string, file: File, now: Time)
    requires RecordDateOrder(s, actor, f, expected, order, objectKey, file, now).1 == Ok
    ensures Follows(s, RecordDateOrder(s, actor, f, expected, order, objectKey, file, now).0, f)
  {
    hide Follows;
    var t := RecordDateOrder(s, actor, f, expected, order, objectKey, file, now).0;
    RowFollows(s, t, f, t.envelopes[f], t.txs[|s.txs|]);
  }

  lemma PublishFollows(s: State, actor: Actor, id: nat, copyId: nat, expected: nat, now: Time)
    requires PublishCopy(s, actor, id, copyId, expected, now).1 == Ok
    ensures id in s.docs && Follows(s, PublishCopy(s, actor, id, copyId, expected, now).0, s.docs[id].envelope)
  {
    hide Follows;
    var t, f := PublishCopy(s, actor, id, copyId, expected, now).0, s.docs[id].envelope;
    if t == s { NothingFollows(s, t, f); } else { RowFollows(s, t, f, t.envelopes[f], t.txs[|s.txs|]); }
  }

  lemma WithholdFollows(s: State, actor: Actor, id: nat, expected: nat, now: Time)
    requires WithholdDocument(s, actor, id, expected, now).1 == Ok
    ensures id in s.docs && Follows(s, WithholdDocument(s, actor, id, expected, now).0, s.docs[id].envelope)
  {
    hide Follows;
    var t, f := WithholdDocument(s, actor, id, expected, now).0, s.docs[id].envelope;
    if t == s { NothingFollows(s, t, f); } else { RowFollows(s, t, f, t.envelopes[f], t.txs[|s.txs|]); }
  }

  lemma PayFollows(cfg: Config, s: State, actor: Actor, f: nat, expected: nat, amount: nat, now: Time)
    requires ProcessPayment(cfg, s, actor, f, expected, amount, now).1 == Ok
    ensures Follows(s, ProcessPayment(cfg, s, actor, f, expected, amount, now).0, f)
  {
    hide Follows, Fees;
    var t := ProcessPayment(cfg, s, actor, f, expected, amount, now).0;
    RowFollows(s, t, f, t.envelopes[f], t.txs[|s.txs|]);
  }

  lemma CreditFollows(cfg: Config, s: State, actor: Actor, key: Key, credit: CreditRequest, now: Time)
    requires credit.actor == actor.id && RecordCredit(cfg, s, actor, key, credit, now).1 == Ok
    ensures Follows(s, RecordCredit(cfg, s, actor, key, credit, now).0, credit.filing)
  {
    hide Follows, CreditError, FindCredit;
    var t := RecordCredit(cfg, s, actor, key, credit, now).0;
    RowFollows(s, t, credit.filing, t.envelopes[credit.filing], t.txs[|s.txs|]);
  }

  lemma ReverseFollows(cfg: Config, s: State, actor: Actor, f: nat, p: nat, expected: nat, now: Time)
    requires ReverseCredit(cfg, s, actor, f, p, expected, now).1 == Ok
    ensures Follows(s, ReverseCredit(cfg, s, actor, f, p, expected, now).0, f)
  {
    hide Follows;
    var t := ReverseCredit(cfg, s, actor, f, p, expected, now).0;
    RowFollows(s, t, f, t.envelopes[f], t.txs[|s.txs|]);
  }

  /** New filings, evidence, prepared copies and calendars add no row. */
  lemma AddedTells(s: State, t: State)
    requires Telling(s) && t.txs == s.txs && s.envelopes <= t.envelopes
    requires forall f | |s.envelopes| <= f < |t.envelopes| :: View(t.envelopes[f]) == UNTOLD
    ensures Telling(t)
  {
    hide RowFits;
    forall f | 0 <= f < |t.envelopes| ensures View(t.envelopes[f]) == Replay(t.txs, f) {
      if |s.envelopes| <= f {
        assert t.txs[..0] == [];
        ReplayOthers(t.txs, 0, f);
      }
    }
  }

  lemma CreateTells(s: State, actor: Actor, key: Key, data: NewFiling, place: Option<Place>, participant: bool)
    requires Telling(s)
    ensures Telling(CreateFiling(s, actor, key, data, place, participant).0)
  {
    hide Telling, DestinationError, FindCreation;
    AddedTells(s, CreateFiling(s, actor, key, data, place, participant).0);
  }

  /** The filing a request is about. */
  function Subject(s: State, q: Request): nat {
    match q
    case Record(_, evidence, _, _, _, _) => evidence.filing
    case Credit(_, _, credit, _) => credit.filing
    case Publish(_, id, _, _, _) => if id in s.docs then s.docs[id].envelope else 0
    case Withhold(_, id, _, _) => if id in s.docs then s.docs[id].envelope else 0
    case Create(_, _, _, _, _) => 0
    case Prepare(_, _, _, _, _, _) => 0
    case NewCalendar(_, _, _, _, _, _) => 0
    case _ => q.f
  }

  predicate AddsOnly(q: Request) {
    q.Create? || q.Probe? || q.Prepare? || q.NewCalendar?
  }

  lemma AdditionTells(cfg: Config, s: State, q: Request)
    requires Possible(s, q) && Telling(s) && AddsOnly(q)
    ensures Telling(Apply(cfg, s, q).0)
  {
    hide Telling, CreateFiling, VerifyReview;
    if q.Create? {
      CreateTells(s, q.actor, q.key, q.data, q.place, q.participant);
    } else {
      AddedTells(s, Apply(cfg, s, q).0);
    }
  }

  lemma RequestFollows(cfg: Config, s: State, q: Request)
    requires Inv(s) && Possible(s, q) && !AddsOnly(q) && Apply(cfg, s, q).1 == Ok
    ensures Follows(s, Apply(cfg, s, q).0, Subject(s, q))
  {
    hide Inv, Follows;
    hide UpdateDetails, UploadDocument, RemoveDocument, SubmitFiling, RecordReview, RecordDateOrder, SubmitAssessment, ReviewAssessment,
         RequestFeeReview, AssessFees, DecideWaiver, PublishCopy, WithholdDocument, ProcessPayment, RecordCredit, ReverseCredit;
    match q
    case Update(actor, f, edit) => UpdateFollows(s, actor, f, edit);
    case PutDocument(actor, f, key, objectKey, file, filename, confidential, now) => UploadFollows(s, actor, f, key, objectKey, file, filename, confidential, now);
    case DropDocument(actor, f, id, now) => RemoveFollows(s, actor, f, id, now);
    case Submit(actor, f, key, token, place, participant, required, prints, now) =>
      SubmitFollows(cfg, s, actor, f, key, token, place, participant, required, prints, SubmitAssessment(cfg, s, f, now), now);
    case Record(actor, evidence, reason, place, cms, now) =>
      RecordFollows(cfg, s, actor, evidence, reason, place, ReviewAssessment(cfg, s, evidence.filing), cms, now);
    case AskFeeReview(actor, f, expected, reason, storage, now) => FeeReviewFollows(s, actor, f, expected, reason, storage, now);
    case Assess(actor, f, expected, total, authority, storage, now) => AssessFollows(s, actor, f, expected, total, authority, storage, now);
    case Waive(actor, f, expected, waiver, reason, due, order, now) => WaiveFollows(s, actor, f, expected, waiver, reason, due, order, now);
    case OrderDate(actor, f, expected, order, objectKey, file, now) => OrderFollows(s, actor, f, expected, order, objectKey, file, now);
    case Publish(actor, id, copyId, expected, now) => PublishFollows(s, actor, id, copyId, expected, now);
    case Withhold(actor, id, expected, now) => WithholdFollows(s, actor, id, expected, now);
    case Pay(actor, f, expected, amount, now) => PayFollows(cfg, s, actor, f, expected, amount, now);
    case Credit(actor, key, credit, now) => CreditFollows(cfg, s, actor, key, credit, now);
    case Reverse(actor, f, payment, expected, now) => ReverseFollows(cfg, s, actor, f, payment, expected, now);
    case _ =>
  }

  lemma RequestTells(cfg: Config, s: State, q: Request)
    requires Inv(s) && Possible(s, q) && Telling(s)
    ensures Telling(Apply(cfg, s, q).0)
  {
    hide Inv, Apply, Telling, Follows;
    if AddsOnly(q) {
      AdditionTells(cfg, s, q);
    } else if Apply(cfg, s, q).1 == Ok {
      RequestFollows(cfg, s, q);
      FollowsTells(s, Apply(cfg, s, q).0, Subject(s, q));
    }
  }

  lemma NumberedAt(s: State, f: nat)
    requires Inv(s) && f < |s.envelopes|
    ensures Numbered(s.envelopes[f], Receipts(s.txs, f))
  {
    InvEnv(s, f);
  }

  /** In every reachable state each filing is exactly what replaying its history tells. */
  lemma {:induction false} HistoryTells(cfg: Config, r: seq<State>, x: nat)
    requires Run(cfg, r) && x < |r|
    ensures Telling(r[x])
  {
    hide Inv, Apply, Replay, RowFits;
    if x > 0 {
      HistoryTells(cfg, r, x - 1);
      RunInv(cfg, r, x - 1);
      assert Step(cfg, r[x - 1], r[x - 1 + 1]);
      var q :| Possible(r[x - 1], q) && r[x] == Apply(cfg, r[x - 1], q).0;
      RequestTells(cfg, r[x - 1], q);
    }
  }
}
