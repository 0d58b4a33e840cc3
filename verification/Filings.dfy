/**
 The filing tables and every locked section that changes them: drafts, documents, submissions,
 clerk reviews, fee decisions, payments, filing-date orders and public copies. Each section is a
 function from the tables before to the tables after and the reply. Reads of other systems
 (stored files, court set-up, calendars, the case management system, roles) are parameters.
 */
module Filings {
  import opened Common
  import CourtCalendars

  type Day = CourtCalendars.Day
  type Assessment = CourtCalendars.Assessment

  // ---------------------------------------------------------------- tables

  predicate IsSha(s: string) {
    |s| == 64 && forall k | 0 <= k < |s| :: '0' <= s[k] <= '9' || 'a' <= s[k] <= 'f'
  }

  /** A SHA-256 digest in lower-case hexadecimal. */
  type Sha = s: string | IsSha(s) witness seq(64, _ => '0')

  /** A UUID. */
  type Key = nat

  datatype Status = Draft | Submitted | UnderReview | Accepted | Rejected | Returned | Served
  datatype FilingType = Initial | Subsequent | ServiceOnly
  datatype DocType = FeeWaiver | FeeWaiverOrder | FilingDateOrder | Other(code: string)

  predicate PrivateType(t: DocType) {
    t.FeeWaiver? || t.FeeWaiverOrder?
  }

  predicate CourtType(t: DocType) {
    t.FeeWaiverOrder? || t.FilingDateOrder?
  }

  predicate Editable(status: Status) {
    status.Draft? || status.Returned?
  }

  predicate Pending(status: Status) {
    status.Submitted? || status.UnderReview?
  }

  datatype File = File(docType: DocType, title: string, sha: Sha, size: nat, mime: string,
                       pages: Option<nat>, searchable: bool)

  datatype Doc = Doc(envelope: nat, key: string, file: File, uploadedAt: Time, confidential: bool,
                     retainedAt: Option<Time>, removedAt: Option<Time>,
                     accessVersion: nat, publicCopy: Option<nat>)

  /** What a receipt keeps of a document. */
  datatype Entry = Entry(id: nat, file: File, uploadedAt: Time, confidential: bool)

  datatype Print = Print(id: nat, sha: Sha, size: nat)

  /** The copy in row k has id k + 1. */
  datatype Copy = Copy(document: nat, key: string, title: string, sha: Sha, size: nat)
  datatype CopyEntry = CopyEntry(id: nat, document: nat, title: string, sha: Sha, size: nat)

  datatype Basis =
    | Assessed(assessment: Assessment)
    | CourtOrder(date: Day, order: nat, signed: Day, authority: string, submission: nat)

  function BasisDate(b: Basis): Option<Day> {
    match b
    case Assessed(a) => a.filingDate
    case CourtOrder(date, _, _, _, _) => Some(date)
  }

  datatype Details = Details(title: Option<string>, description: Option<string>,
                             waiverRequested: bool, waiverReason: Option<string>)

  datatype NewFiling = NewFiling(court: nat, case_: Option<nat>, caseType: nat,
                                 filingType: FilingType, details: Details)

  datatype Review = Review(reviewer: nat, at: Time, reason: Option<string>)

  datatype Envelope = Envelope(
    court: nat, case_: Option<nat>, caseType: nat, filer: nat, filingType: FilingType,
    creationKey: Key, creation: NewFiling,
    status: Status, details: Details,
    filedAt: Option<Time>, submittedAt: Option<Time>, review: Option<Review>,
    payment: Option<nat>, paymentVersion: nat,
    waiverGranted: Option<bool>, waiverReferredAt: Option<Time>, waiverDue: Option<nat>,
    cmsError: Option<string>, cmsFiling: Option<string>,
    submissions: nat, filingDate: Option<Day>, basis: Option<Basis>, dateVersion: nat,
    feeVersion: nat, feeReviewAt: Option<Time>, feeAssessment: Option<nat>)

  datatype Source = Unassessed | ServiceRecord | WaiverDecision | CourtAssessment | DemoExample

  datatype FeeState = FeeState(source: Source, total: Option<nat>, paid: nat, balance: Option<nat>,
                               overpaid: nat, obligationMet: bool, assessment: Option<nat>, stale: bool)

  datatype Event =
    | Receipt(service: bool, case_: Option<nat>, court: nat, filingType: FilingType,
              basis: Option<Basis>, fees: FeeState, documents: seq<Entry>)
    | FeeReviewRequested(reason: string, documents: seq<Entry>)
    | FeeAssessed(version: nat, total: nat, authority: string, replaced: Option<nat>, documents: seq<Entry>)
    | WaiverDecided(granted: bool, due: nat, documents: seq<Entry>)
    | WaiverReferred
    | DateOrdered(previous: Option<Day>, previousBasis: Option<Basis>, ordered: Basis, documents: seq<Entry>)
    | DateAssessed(previous: Option<Day>, assessed: Basis)
    | CmsFailed(error: string)
    | Decided(status: Status, note: Option<string>)
    | CopyPublished(document: nat, copy: CopyEntry)
    | Withheld(document: nat, copyId: Option<nat>)
    | PaymentRecorded(payment: nat, amount: nat, simulated: bool)
    | CreditRecorded(payment: nat, amount: nat, simulated: bool)
    | CreditReversed(payment: nat, amount: nat, simulated: bool)

  /** An append-only history row; its id is its position. */
  datatype Tx = Tx(filing: nat, submission: nat, event: Event, actor: nat, at: Time, key: Option<Key>)

  datatype PaymentStatus = Completed | Reversed

  /** The normalised identity of a receipt issued outside the portal. */
  datatype ReceiptKey = ReceiptKey(court: nat, system: string, reference: string)

  datatype CreditRequest = CreditRequest(filing: nat, actor: nat, amount: nat, receivedAt: Time,
                                         system: string, reference: string, receipt: ReceiptKey, reason: string,
                                         feeVersion: nat, paymentVersion: nat)

  datatype External = External(key: Key, receipt: ReceiptKey, request: CreditRequest)

  datatype Payment = Payment(envelope: nat, payer: nat, amount: nat, status: PaymentStatus,
                             simulated: bool, external: Option<External>)

  datatype Case = Case(court: nat, caseType: nat, title: string, filedAt: Time,
                       filingDate: Option<Day>, dateVersion: nat, openedBy: nat)

  datatype UploadPrint = UploadPrint(docType: DocType, title: string, confidential: bool, filename: string,
                                     mime: string, size: nat, sha: Sha)
  datatype Upload = Upload(fingerprint: UploadPrint, document: Option<nat>)

  datatype Action = Accept | Reject | Return

  /** What an unlocked check before a review read, and the count the reviewer expected. */
  datatype Evidence = Evidence(filing: nat, action: Action, count: nat, dateVersion: nat,
                               ordered: bool, prints: Option<seq<Print>>)

  datatype State = State(
    envelopes: seq<Envelope>, docs: map<nat, Doc>, nextDoc: nat, copies: seq<Copy>, txs: seq<Tx>,
    payments: seq<Payment>, cases: seq<Case>, uploads: map<(nat, Key), Upload>, reviews: set<Evidence>,
    calendars: seq<CourtCalendars.Calendar>)

  const EMPTY := State([], map[], 1, [], [], [], [], map[], {}, [])

  /** Deployment settings, and each time zone's offset from UTC at an instant. */
  datatype Config = Config(demo: bool, simulatedPayments: bool, externalPayments: bool, filingFees: map<nat, nat>,
                           offsets: Time -> (CourtCalendars.Zone -> int))

  datatype Actor = Actor(id: nat, mayFile: bool, staffOf: set<nat>, administers: set<nat>,
                         judgeOf: set<nat>, clerkOf: set<nat>)

  /** The selected court and case type as stored: none when either is missing. */
  datatype Place = Place(typeCourt: nat, enabled: bool, active: bool)

  /** Digest and size of each stored file that can be read. */
  type Storage = map<string, (string, nat)>

  datatype Reply = Ok | Replayed | Refused(status: nat)

  // ---------------------------------------------------------------- documents

  predicate IsCurrent(docs: map<nat, Doc>, f: nat, id: nat) {
    id in docs && docs[id].envelope == f && docs[id].removedAt.None? && !CourtType(docs[id].file.docType)
  }

  /** The ids of a filing's current documents below `n`, in ascending order. */
  function Current(docs: map<nat, Doc>, f: nat, n: nat): seq<nat> {
    if n == 0 then [] else Current(docs, f, n - 1) + if IsCurrent(docs, f, n - 1) then [n - 1] else []
  }

  function CurrentOf(s: State, f: nat): seq<nat> {
    Current(s.docs, f, s.nextDoc)
  }

  predicate Stored(docs: map<nat, Doc>, ids: seq<nat>) {
    forall k | 0 <= k < |ids| :: ids[k] in docs
  }

  function EntryOf(id: nat, d: Doc): Entry {
    Entry(id, d.file, d.uploadedAt, d.confidential)
  }

  function PrintOf(id: nat, d: Doc): Print {
    Print(id, d.file.sha, d.file.size)
  }

  function Manifest(docs: map<nat, Doc>, ids: seq<nat>): (m: seq<Entry>)
    requires Stored(docs, ids)
  {
    seq(|ids|, k requires 0 <= k < |ids| => EntryOf(ids[k], docs[ids[k]]))
  }

  function Prints(docs: map<nat, Doc>, ids: seq<nat>): (p: seq<Print>)
    requires Stored(docs, ids)
  {
    seq(|ids|, k requires 0 <= k < |ids| => PrintOf(ids[k], docs[ids[k]]))
  }

  function EntryPrint(e: Entry): Print {
    Print(e.id, e.file.sha, e.file.size)
  }

  function EntryPrints(m: seq<Entry>): seq<Print> {
    seq(|m|, k requires 0 <= k < |m| => EntryPrint(m[k]))
  }

  /** A stored file has the digest and size its row records. */
  predicate Intact(d: Doc, storage: Storage) {
    d.key in storage && storage[d.key] == (d.file.sha, d.file.size)
  }

  predicate AllIntact(docs: map<nat, Doc>, ids: seq<nat>, storage: Storage)
    requires Stored(docs, ids)
  {
    ids != [] && forall k | 0 <= k < |ids| :: Intact(docs[ids[k]], storage)
  }

  function Retain(docs: map<nat, Doc>, ids: seq<nat>, now: Time): map<nat, Doc> {
    map id | id in docs ::
      if id in ids && docs[id].retainedAt.None? then docs[id].(retainedAt := Some(now)) else docs[id]
  }

  lemma {:induction false} CurrentAre(docs: map<nat, Doc>, f: nat, n: nat)
    ensures forall k | 0 <= k < |Current(docs, f, n)| :: Current(docs, f, n)[k] < n && IsCurrent(docs, f, Current(docs, f, n)[k])
    ensures forall id: nat | id < n && IsCurrent(docs, f, id) :: id in Current(docs, f, n)
    ensures Stored(docs, Current(docs, f, n))
  {
    if n > 0 {
      CurrentAre(docs, f, n - 1);
      assert Current(docs, f, n) == Current(docs, f, n - 1) + if IsCurrent(docs, f, n - 1) then [n - 1] else [];
    }
  }

  // ---------------------------------------------------------------- fees

  /** Does the payment count towards what its filer has paid? */
  predicate Counts(cfg: Config, p: Payment, f: nat, filer: nat) {
    p.envelope == f && p.status.Completed? && p.payer == filer && p.amount > 0 && (cfg.demo || !p.simulated)
  }

  function Paid(cfg: Config, payments: seq<Payment>, f: nat, filer: nat): nat {
    if payments == [] then 0
    else
      Paid(cfg, payments[..|payments| - 1], f, filer)
      + if Counts(cfg, payments[|payments| - 1], f, filer) then payments[|payments| - 1].amount else 0
  }

  /** The assessment row the filing points to, if it is one of its own fee assessments. */
  function AssessmentOf(s: State, f: nat): Option<nat>
    requires f < |s.envelopes|
  {
    var a := s.envelopes[f].feeAssessment;
    if a.Some? && a.value < |s.txs| && s.txs[a.value].filing == f && s.txs[a.value].event.FeeAssessed? then a else None
  }

  predicate Stale(s: State, f: nat)
    requires f < |s.envelopes|
  {
    var e, a := s.envelopes[f], AssessmentOf(s, f);
    e.feeAssessment.Some? && (a.None? || s.txs[a.value].event.version != e.feeVersion)
  }

  function SourceAndTotal(cfg: Config, s: State, f: nat): (r: (Source, Option<nat>))
    requires f < |s.envelopes|
  {
    var e, a := s.envelopes[f], AssessmentOf(s, f);
    if e.filingType.ServiceOnly? then (ServiceRecord, Some(0))
    else if e.waiverGranted == Some(true) then (WaiverDecision, Some(0))
    else if e.waiverGranted == Some(false) && e.waiverDue.Some? then (WaiverDecision, e.waiverDue)
    else if a.Some? && !Stale(s, f) then (CourtAssessment, Some(s.txs[a.value].event.total))
    else if e.feeAssessment.None? && cfg.demo && e.feeReviewAt.None?
            && e.caseType in cfg.filingFees && (e.filingType.Initial? || cfg.filingFees[e.caseType] == 0) then
      (DemoExample, Some(cfg.filingFees[e.caseType]))
    else (Unassessed, None)
  }

  predicate WaiverOpen(e: Envelope) {
    e.details.waiverRequested && e.waiverGranted.None?
  }

  function Over(a: nat, b: nat): nat {
    if a > b then a - b else 0
  }

  function Fees(cfg: Config, s: State, f: nat): (r: FeeState)
    requires f < |s.envelopes|
  {
    var e := s.envelopes[f];
    var (source, total) := SourceAndTotal(cfg, s, f);
    var paid := Paid(cfg, s.payments, f, e.filer);
    var settled := source.WaiverDecision? || source.ServiceRecord?;
    var balance := if total.Some? then Some(Over(total.value, paid)) else None;
    FeeState(source, total, paid, balance,
             if total.Some? then Over(paid, total.value) else 0,
             balance == Some(0) || WaiverOpen(e),
             if settled then None else AssessmentOf(s, f),
             !settled && Stale(s, f))
  }

  predicate Closed(status: Status) {
    status.Rejected? || status.Served?
  }

  predicate Reviewable(e: Envelope) {
    !e.filingType.ServiceOnly? && !Closed(e.status) && !e.details.waiverRequested && e.waiverGranted.None?
  }

  predicate AwaitsPayment(e: Envelope, fees: FeeState) {
    fees.balance.Some? && fees.balance.value > 0 && !Closed(e.status) && !WaiverOpen(e)
  }

  /** What the fee page offers a viewer. */
  datatype Permissions = Permissions(requestReview: bool, assess: bool, pay: bool, manageCredits: bool, recordCredit: bool, requestWaiver: bool)

  function PermissionsOf(cfg: Config, s: State, f: nat, viewer: Option<Actor>): Permissions
    requires f < |s.envelopes|
  {
    var e, fees := s.envelopes[f], Fees(cfg, s, f);
    var owner := viewer.Some? && viewer.value.id == e.filer && viewer.value.mayFile;
    var outsider := viewer.Some? && viewer.value.id != e.filer;
    var manages := cfg.externalPayments && outsider && e.court in viewer.value.administers;
    Permissions(Reviewable(e) && owner && e.feeReviewAt.None?,
                Reviewable(e) && outsider && e.court in viewer.value.staffOf,
                owner && AwaitsPayment(e, fees),
                manages,
                manages && (fees.source.CourtAssessment? || fees.source.WaiverDecision?) && AwaitsPayment(e, fees),
                owner && e.submittedAt.None? && e.waiverGranted.None? && !e.filingType.ServiceOnly? && e.status.Draft?)
  }

  /** The latest fee review request of a filing, the later row first among equal times. */
  function LatestRequest(txs: seq<Tx>, f: nat): (r: Option<nat>)
    ensures r.Some? ==> r.value < |txs| && txs[r.value].filing == f && txs[r.value].event.FeeReviewRequested?
    ensures forall i | 0 <= i < |txs| && txs[i].filing == f && txs[i].event.FeeReviewRequested? ::
              r.Some? && (txs[i].at < txs[r.value].at || (txs[i].at == txs[r.value].at && i <= r.value))
  {
    if txs == [] then None
    else
      var n := |txs| - 1;
      var best := LatestRequest(txs[..n], f);
      if txs[n].filing == f && txs[n].event.FeeReviewRequested? && (best.None? || txs[best.value].at <= txs[n].at) then Some(n) else best
  }

  // ---------------------------------------------------------------- shared effects

  function WithTx(s: State, f: nat, e: Envelope, docs: map<nat, Doc>, nextDoc: nat, more: seq<Tx>): State
    requires f < |s.envelopes|
  {
    s.(envelopes := s.envelopes[f := e], docs := docs, nextDoc := nextDoc, txs := s.txs + more)
  }

  /** Why a destination is refused, to a filer or (`filer` false) to a reviewer. */
  function DestinationError(s: State, court: nat, case_: Option<nat>, caseType: nat, filingType: FilingType,
                            filer: bool, place: Option<Place>, participant: bool): Option<nat>
  {
    if !filer && filingType.ServiceOnly? then Some(409)
    else if filer && filingType.Initial? != case_.None? then Some(409)
    else if place.None? then Some(404)
    else if place.value.typeCourt != court then Some(400)
    else if filer && !(place.value.enabled && place.value.active) then Some(409)
    else if case_.None? then None
    else if case_.value >= |s.cases| then Some(404)
    else if filer && !participant then Some(403)
    else if s.cases[case_.value].court != court || s.cases[case_.value].caseType != caseType then Some(400)
    else None
  }

  predicate IsCredit(e: Event) {
    e.CreditRecorded? || e.CreditReversed?
  }

  /** The rows added to a history say nothing about payments or credits. */
  ghost predicate NoMoney(before: seq<Tx>, after: seq<Tx>) {
    before <= after && forall i | |before| <= i < |after| :: !IsCredit(after[i].event) && !after[i].event.PaymentRecorded?
  }

  // ---------------------------------------------------------------- drafts

  function FindCreation(envelopes: seq<Envelope>, filer: nat, key: Key): (r: Option<nat>)
    ensures r.Some? ==> r.value < |envelopes| && envelopes[r.value].filer == filer && envelopes[r.value].creationKey == key
    ensures r.None? ==> forall f | 0 <= f < |envelopes| :: !(envelopes[f].filer == filer && envelopes[f].creationKey == key)
  {
    if envelopes == [] then None
    else
      var last := |envelopes| - 1;
      if envelopes[last].filer == filer && envelopes[last].creationKey == key then Some(last)
      else FindCreation(envelopes[..last], filer, key)
  }

  function NewEnvelope(s: State, filer: nat, key: Key, data: NewFiling): Envelope {
    var title := if data.case_.Some? && data.case_.value < |s.cases| then Some(s.cases[data.case_.value].title) else data.details.title;
    Envelope(data.court, data.case_, data.caseType, filer, data.filingType, key, data,
             Draft, data.details.(title := title), None, None, None,
             None, 0, None, None, None, None, None, 0, None, None, 0, 0, None, None)
  }

  function CreateFiling(s: State, actor: Actor, key: Key, data: NewFiling,
                        place: Option<Place>, participant: bool): (r: (State, Reply))
    ensures r.1 != Ok ==> r.0 == s
    ensures r.0.payments == s.payments && r.0.calendars == s.calendars && NoMoney(s.txs, r.0.txs)
  {
    if !actor.mayFile then (s, Refused(403))
    else if data.filingType.Initial? != data.case_.None? then (s, Refused(422))
    else
      var found := FindCreation(s.envelopes, actor.id, key);
      if found.Some? then (s, if s.envelopes[found.value].creation == data then Replayed else Refused(409))
      else
        var blocked := DestinationError(s, data.court, data.case_, data.caseType, data.filingType, true, place, participant);
        if blocked.Some? then (s, Refused(blocked.value))
        else (s.(envelopes := s.envelopes + [NewEnvelope(s, actor.id, key, data)]), Ok)
  }

  datatype DetailsToken = DetailsToken(id: nat, status: Status, submissions: nat, details: Details)

  function TokenOf(s: State, f: nat): DetailsToken
    requires f < |s.envelopes|
  {
    var e := s.envelopes[f];
    DetailsToken(f, e.status, e.submissions, e.details)
  }

  datatype Edit = Edit(token: Option<DetailsToken>, title: Option<string>, description: Option<string>,
                       waiver: Option<bool>, waiverReason: Option<string>)

  predicate Owned(s: State, actor: Actor, f: nat) {
    actor.mayFile && f < |s.envelopes| && s.envelopes[f].filer == actor.id
  }

  function OwnerError(s: State, actor: Actor, f: nat): nat {
    if actor.mayFile && f >= |s.envelopes| then 404 else 403
  }

  function UpdateDetails(s: State, actor: Actor, f: nat, edit: Edit): (r: (State, Reply))
    ensures (r.1 != Ok ==> r.0 == s) && |r.0.envelopes| == |s.envelopes|
    ensures r.0.payments == s.payments && r.0.calendars == s.calendars && NoMoney(s.txs, r.0.txs)
  {
    if !Owned(s, actor, f) then (s, Refused(OwnerError(s, actor, f)))
    else
      var e := s.envelopes[f];
      var d := e.details;
      if edit.token.None? && edit != Edit(None, None, None, None, None) then (s, Refused(422))
      else if edit.token.Some? && edit.token.value != TokenOf(s, f) then (s, Refused(409))
      else if !Editable(e.status) then (s, Refused(400))
      else if e.submittedAt.Some? && ((edit.waiver.Some? && edit.waiver.value != d.waiverRequested)
                                      || (edit.waiverReason.Some? && edit.waiverReason != d.waiverReason)) then (s, Refused(409))
      else if edit.title.Some? && edit.title != d.title && e.case_.Some? then (s, Refused(409))
      else
        var next := Details(if edit.title.Some? then edit.title else d.title,
                            if edit.description.Some? then edit.description else d.description,
                            if edit.waiver.Some? then edit.waiver.value else d.waiverRequested,
                            if edit.waiverReason.Some? then edit.waiverReason else d.waiverReason);
        (s.(envelopes := s.envelopes[f := e.(details := next,
                                             feeReviewAt := if edit.waiver == Some(true) then None else e.feeReviewAt)]), Ok)
  }

  // ---------------------------------------------------------------- uploads and removals

  function FingerprintOf(file: File, filename: string, confidential: bool): UploadPrint {
    UploadPrint(file.docType, file.title, confidential, filename, file.mime, file.size, file.sha)
  }

  function UploadReply(s: State, f: nat, key: Key, fingerprint: UploadPrint): Reply
    requires (f, key) in s.uploads
  {
    var u := s.uploads[(f, key)];
    if u.fingerprint != fingerprint then Refused(409)
    else if u.document.None? || u.document.value !in s.docs || s.docs[u.document.value].removedAt.Some? then Refused(409)
    else Replayed
  }

  function UploadDocument(s: State, actor: Actor, f: nat, key: Key, objectKey: string,
                          file: File, filename: string, confidential: bool, now: Time): (r: (State, Reply))
    ensures (r.1 != Ok ==> r.0 == s) && |r.0.envelopes| == |s.envelopes|
    ensures r.0.payments == s.payments && r.0.calendars == s.calendars && NoMoney(s.txs, r.0.txs)
  {
    if !Owned(s, actor, f) then (s, Refused(OwnerError(s, actor, f)))
    else if (f, key) in s.uploads then (s, UploadReply(s, f, key, FingerprintOf(file, filename, confidential)))
    else if !Editable(s.envelopes[f].status) then (s, Refused(400))
    else if CourtType(file.docType) then (s, Refused(403))
    else
      var doc := Doc(f, objectKey, file, now, confidential || PrivateType(file.docType), None, None, 0, None);
      var e := s.envelopes[f];
      (WithTx(s, f, e.(feeVersion := e.feeVersion + 1), s.docs[s.nextDoc := doc], s.nextDoc + 1, [])
         .(uploads := s.uploads[(f, key) := Upload(FingerprintOf(file, filename, confidential), Some(s.nextDoc))]), Ok)
  }

  function Forget(uploads: map<(nat, Key), Upload>, id: nat): map<(nat, Key), Upload> {
    map k | k in uploads :: if uploads[k].document == Some(id) then uploads[k].(document := None) else uploads[k]
  }

  function RemoveDocument(s: State, actor: Actor, f: nat, id: nat, now: Time): (r: (State, Reply))
    ensures (r.1 != Ok ==> r.0 == s) && |r.0.envelopes| == |s.envelopes|
    ensures r.0.payments == s.payments && r.0.calendars == s.calendars && NoMoney(s.txs, r.0.txs)
  {
    if !Owned(s, actor, f) then (s, Refused(OwnerError(s, actor, f)))
    else
      var e := s.envelopes[f];
      if !Editable(e.status) then (s, Refused(400))
      else if !IsCurrent(s.docs, f, id) then (s, Refused(404))
      else
        var next := e.(feeVersion := e.feeVersion + 1);
        if s.docs[id].retainedAt.Some? || e.submittedAt.Some? then
          (WithTx(s, f, next, s.docs[id := s.docs[id].(removedAt := Some(now))], s.nextDoc, []), Ok)
        else
          (WithTx(s, f, next, s.docs - {id}, s.nextDoc, []).(uploads := Forget(s.uploads, id)), Ok)
  }

  // ---------------------------------------------------------------- court calendars

  /** Publish a calendar revision; revisions are numbered as they are published and never change. */
  function PublishCalendar(s: State, actor: Actor, court: nat, zone: CourtCalendars.Zone, from: Day, through: Day, closed: map<Day, string>): (r: (State, Reply))
    ensures (r.1 != Ok ==> r.0 == s) && |r.0.envelopes| == |s.envelopes|
    ensures r.0.payments == s.payments && NoMoney(s.txs, r.0.txs)
  {
    if court !in actor.administers && court !in actor.judgeOf then (s, Refused(403))
    else (s.(calendars := s.calendars + [CourtCalendars.Calendar(|s.calendars|, court, zone, from, through, closed)]), Ok)
  }

  /** The assessment of a receipt by a table of revisions. */
  function AssessmentBy(cfg: Config, calendars: seq<CourtCalendars.Calendar>, court: nat, at: Time): Assessment {
    CourtCalendars.Assess(CourtCalendars.AllNewestFirst(calendars, court), CourtCalendars.LocalDays(at, cfg.offsets(at)), CourtCalendars.SEARCH_LIMIT)
  }

  const NO_ASSESSMENT := CourtCalendars.Assessment(None, None, None, [], map[], None)

  /** The assessment a submission makes, of the first receipt time. */
  function SubmitAssessment(cfg: Config, s: State, f: nat, now: Time): Assessment {
    if f < |s.envelopes| then
      AssessmentBy(cfg, s.calendars, s.envelopes[f].court, OrElse(s.envelopes[f].filedAt, OrElse(s.envelopes[f].submittedAt, Some(now))).value)
    else NO_ASSESSMENT
  }

  /** The assessment an acceptance makes. */
  function ReviewAssessment(cfg: Config, s: State, f: nat): Assessment {
    if f < |s.envelopes| && OrElse(s.envelopes[f].filedAt, s.envelopes[f].submittedAt).Some? then
      AssessmentBy(cfg, s.calendars, s.envelopes[f].court, OrElse(s.envelopes[f].filedAt, s.envelopes[f].submittedAt).value)
    else NO_ASSESSMENT
  }

  // ---------------------------------------------------------------- submission

  datatype SubmissionToken = SubmissionToken(
    details: DetailsToken, court: nat, case_: Option<nat>, caseType: nat, filingType: FilingType,
    feeVersion: nat, payment: Option<nat>, paymentVersion: nat,
    waiverGranted: Option<bool>, waiverDue: Option<nat>, documents: seq<Entry>)

  function SubmissionTokenOf(s: State, f: nat): SubmissionToken
    requires f < |s.envelopes|
  {
    var e := s.envelopes[f];
    CurrentAre(s.docs, f, s.nextDoc);
    SubmissionToken(TokenOf(s, f), e.court, e.case_, e.caseType, e.filingType, e.feeVersion,
                    e.payment, e.paymentVersion, e.waiverGranted, e.waiverDue, Manifest(s.docs, CurrentOf(s, f)))
  }

  predicate KeyUsed(txs: seq<Tx>, f: nat, key: Option<Key>) {
    key.Some? && exists i | 0 <= i < |txs| :: txs[i].filing == f && txs[i].key == key
  }

  /** Is the draft complete? `required` says that the court's required documents are there. */
  predicate Complete(s: State, f: nat, required: bool)
    requires f < |s.envelopes|
  {
    var e, ids := s.envelopes[f], CurrentOf(s, f);
    && ids != []
    && (WaiverOpen(e) ==> exists id | id in ids && id in s.docs :: s.docs[id].file.docType.FeeWaiver?)
    && if e.filingType.ServiceOnly? then e.case_.Some?
       else required && (e.case_.Some? || (e.details.title.Some? && e.details.title.value != ""))
  }

  /** The checks of a submission, made both before and under the lock. */
  function SubmitCheck(cfg: Config, s: State, actor: Actor, f: nat, key: Option<Key>, token: SubmissionToken,
                       place: Option<Place>, participant: bool, required: bool): Reply
  {
    if !Owned(s, actor, f) then Refused(OwnerError(s, actor, f))
    else
      var e := s.envelopes[f];
      if KeyUsed(s.txs, f, key) then Replayed
      else if token != SubmissionTokenOf(s, f) then Refused(409)
      else if !Editable(e.status) then Refused(400)
      else if !Fees(cfg, s, f).obligationMet then Refused(402)
      else if !Complete(s, f, required) then Refused(400)
      else
        var blocked := DestinationError(s, e.court, e.case_, e.caseType, e.filingType, true, place, participant);
        if blocked.Some? then Refused(blocked.value) else Ok
  }

  /** The unlocked half: the fingerprints of the current documents, read back from storage. */
  function SubmitProbe(cfg: Config, s: State, actor: Actor, f: nat, key: Option<Key>, token: SubmissionToken,
                       place: Option<Place>, participant: bool, required: bool, storage: Storage): (r: (Reply, seq<Print>))
  {
    var reply := SubmitCheck(cfg, s, actor, f, key, token, place, participant, required);
    CurrentAre(s.docs, f, s.nextDoc);
    if reply != Ok then (reply, [])
    else if !AllIntact(s.docs, CurrentOf(s, f), storage) then (Refused(409), [])
    else (Ok, Prints(s.docs, CurrentOf(s, f)))
  }

  function OrElse(a: Option<Time>, b: Option<Time>): Option<Time> {
    if a.Some? then a else b
  }

  function SubmittedEnvelope(e: Envelope, assessed: Assessment, now: Time): Envelope {
    var dated := !e.filingType.ServiceOnly? && e.filingDate.None?;
    e.(filedAt := OrElse(e.filedAt, OrElse(e.submittedAt, Some(now))), submittedAt := Some(now),
       review := None, cmsError := None, submissions := e.submissions + 1, dateVersion := e.dateVersion + 1,
       filingDate := if dated then assessed.filingDate else e.filingDate,
       basis := if dated then Some(Assessed(assessed)) else e.basis,
       status := if e.filingType.ServiceOnly? then Served else Submitted)
  }

  function SubmitFiling(cfg: Config, s: State, actor: Actor, f: nat, key: Option<Key>, token: SubmissionToken,
                        place: Option<Place>, participant: bool, required: bool, prints: seq<Print>,
                        assessed: Assessment, now: Time): (r: (State, Reply))
    ensures (r.1 != Ok ==> r.0 == s) && |r.0.envelopes| == |s.envelopes|
    ensures r.0.payments == s.payments && r.0.calendars == s.calendars && NoMoney(s.txs, r.0.txs)
  {
    var reply := SubmitCheck(cfg, s, actor, f, key, token, place, participant, required);
    CurrentAre(s.docs, f, s.nextDoc);
    var ids := CurrentOf(s, f);
    if reply != Ok then (s, reply)
    else if Prints(s.docs, ids) != prints then (s, Refused(409))
    else
      var e := SubmittedEnvelope(s.envelopes[f], assessed, now);
      var receipt := Receipt(e.filingType.ServiceOnly?, e.case_, e.court, e.filingType, e.basis, Fees(cfg, s, f), Manifest(s.docs, ids));
      (WithTx(s, f, e, Retain(s.docs, ids, now), s.nextDoc, [Tx(f, e.submissions, receipt, e.filer, now, key)]), Ok)
  }

  // ---------------------------------------------------------------- review

  predicate IndependentStaff(s: State, actor: Actor, f: nat)
    requires f < |s.envelopes|
  {
    s.envelopes[f].court in actor.staffOf && s.envelopes[f].filer != actor.id
  }

  /** The retained signed order a court-ordered date rests on. */
  function OrderOf(s: State, f: nat): Option<nat>
    requires f < |s.envelopes|
  {
    var b := s.envelopes[f].basis;
    if b.Some? && b.value.CourtOrder? && b.value.order in s.docs
       && s.docs[b.value.order].envelope == f && s.docs[b.value.order].file.docType.FilingDateOrder?
       && s.docs[b.value.order].retainedAt.Some? then Some(b.value.order)
    else None
  }

  predicate OrderedDate(e: Envelope) {
    e.basis.Some? && e.basis.value.CourtOrder?
  }

  /** The documents an acceptance rests on: the current ones, and the order of an ordered date. */
  function ReviewIds(s: State, f: nat, order: Option<nat>): seq<nat> {
    CurrentOf(s, f) + if order.Some? then [order.value] else []
  }

  /** The unlocked check before a review. A reply of Ok comes with the evidence it gathered. */
  function VerifyReview(s: State, actor: Actor, f: nat, action: Action, count: nat, storage: Storage): (Reply, Option<Evidence>) {
    if f >= |s.envelopes| then (Refused(404), None)
    else if !IndependentStaff(s, actor, f) then (Refused(403), None)
    else
      var e := s.envelopes[f];
      if e.submissions != count then (Refused(409), None)
      else if !Pending(e.status) then (Refused(400), None)
      else if !action.Accept? then (Ok, Some(Evidence(f, action, count, e.dateVersion, OrderedDate(e), None)))
      else
        var order := OrderOf(s, f);
        CurrentAre(s.docs, f, s.nextDoc);
        if OrderedDate(e) && (order.None? || e.filingDate.None?) then (Refused(409), None)
        else if CurrentOf(s, f) == [] || !AllIntact(s.docs, ReviewIds(s, f, order), storage) then (Refused(409), None)
        else (Ok, Some(Evidence(f, action, count, e.dateVersion, OrderedDate(e), Some(Prints(s.docs, ReviewIds(s, f, order))))))
  }

  function ProbeReview(s: State, actor: Actor, f: nat, action: Action, count: nat, storage: Storage): (r: (State, Reply))
    ensures (r.1 != Ok ==> r.0 == s) && |r.0.envelopes| == |s.envelopes|
    ensures r.0.payments == s.payments && r.0.calendars == s.calendars && NoMoney(s.txs, r.0.txs)
  {
    var (reply, found) := VerifyReview(s, actor, f, action, count, storage);
    (if found.Some? then s.(reviews := s.reviews + {found.value}) else s, reply)
  }

  /** The fingerprints under the lock, with the order named by the current basis if one was expected. */
  function LockedPrints(s: State, f: nat, ordered: bool): seq<Print>
    requires f < |s.envelopes|
  {
    CurrentAre(s.docs, f, s.nextDoc);
    var b := s.envelopes[f].basis;
    var found := ordered && b.Some? && b.value.CourtOrder? && b.value.order in s.docs && s.docs[b.value.order].envelope == f;
    Prints(s.docs, CurrentOf(s, f)) + if found then [PrintOf(b.value.order, s.docs[b.value.order])] else []
  }

  datatype CmsResult = CmsDone(filing: string) | CmsError(message: string)

  /** Why an acceptance is refused under the lock. */
  function AcceptError(cfg: Config, s: State, ev: Evidence, place: Option<Place>, assessed: Assessment): Option<nat>
    requires ev.filing < |s.envelopes|
  {
    var e := s.envelopes[ev.filing];
    if e.dateVersion != ev.dateVersion then Some(409)
    else if DestinationError(s, e.court, e.case_, e.caseType, e.filingType, false, place, false).Some? then Some(409)
    else if ev.prints != Some(LockedPrints(s, ev.filing, ev.ordered)) then Some(409)
    else if OrElse(e.filedAt, e.submittedAt).None? then Some(409)
    else if !ev.ordered && assessed.filingDate.None? && !cfg.demo then Some(409)
    else None
  }

  /** The date an acceptance settles on. */
  function DatedEnvelope(e: Envelope, ev: Evidence, assessed: Assessment): Envelope {
    if ev.ordered || e.basis == Some(Assessed(assessed)) then e
    else e.(filingDate := assessed.filingDate, basis := Some(Assessed(assessed)))
  }

  function Accepting(s: State, ev: Evidence, actor: Actor, assessed: Assessment, cms: CmsResult, now: Time): State
    requires ev.filing < |s.envelopes| && OrElse(s.envelopes[ev.filing].filedAt, s.envelopes[ev.filing].submittedAt).Some?
  {
    var f, was := ev.filing, s.envelopes[ev.filing];
    var receivedAt := OrElse(was.filedAt, was.submittedAt).value;
    var dated := DatedEnvelope(was, ev, assessed);
    var reviewed := dated.(review := Some(Review(actor.id, now, None)), dateVersion := was.dateVersion + 1, status := UnderReview);
    var first := if dated == was then [] else [Tx(f, was.submissions, DateAssessed(was.filingDate, Assessed(assessed)), actor.id, now, None)];
    match cms
    case CmsError(message) =>
      WithTx(s, f, reviewed.(cmsError := Some(message), cmsFiling := None), s.docs, s.nextDoc,
             first + [Tx(f, was.submissions, CmsFailed(message), actor.id, now, None)])
    case CmsDone(filing) =>
      var newCase := Case(was.court, was.caseType, if was.details.title.Some? then was.details.title.value else "Untitled Case",
                         receivedAt, dated.filingDate, 0, f);
      WithTx(s, f, reviewed.(status := Accepted, cmsError := None, cmsFiling := Some(filing),
                             case_ := if was.case_.None? then Some(|s.cases|) else was.case_), s.docs, s.nextDoc,
             first + [Tx(f, was.submissions, Decided(Accepted, None), actor.id, now, None)])
        .(cases := if was.case_.None? then s.cases + [newCase] else s.cases)
  }

  function RecordReview(cfg: Config, s: State, actor: Actor, ev: Evidence, reason: string, place: Option<Place>,
                        assessed: Assessment, cms: CmsResult, now: Time): (r: (State, Reply))
    requires ev.filing < |s.envelopes|
    ensures (r.1 != Ok ==> r.0 == s) && |r.0.envelopes| == |s.envelopes|
    ensures r.0.payments == s.payments && r.0.calendars == s.calendars && NoMoney(s.txs, r.0.txs)
  {
    var f, e := ev.filing, s.envelopes[ev.filing];
    if !IndependentStaff(s, actor, f) then (s, Refused(403))
    else if e.submissions != ev.count then (s, Refused(409))
    else if !Pending(e.status) then (s, Refused(400))
    else if ev.action.Accept? then
      var blocked := AcceptError(cfg, s, ev, place, assessed);
      if blocked.Some? then (s, Refused(blocked.value)) else (Accepting(s, ev, actor, assessed, cms, now), Ok)
    else if reason == "" then (s, Refused(400))
    else
      var status := if ev.action.Reject? then Rejected else Returned;
      (WithTx(s, f, e.(review := Some(Review(actor.id, now, Some(reason))), dateVersion := e.dateVersion + 1, status := status),
              s.docs, s.nextDoc, [Tx(f, e.submissions, Decided(status, Some(reason)), actor.id, now, None)]), Ok)
  }

  // ---------------------------------------------------------------- fee decisions

  function RequestFeeReview(s: State, actor: Actor, f: nat, expected: nat, reason: string, storage: Storage, now: Time): (r: (State, Reply))
    ensures (r.1 != Ok ==> r.0 == s) && |r.0.envelopes| == |s.envelopes|
    ensures r.0.payments == s.payments && r.0.calendars == s.calendars && NoMoney(s.txs, r.0.txs)
  {
    if reason == "" then (s, Refused(422))
    else if !Owned(s, actor, f) then (s, Refused(OwnerError(s, actor, f)))
    else
      var e, ids := s.envelopes[f], CurrentOf(s, f);
      CurrentAre(s.docs, f, s.nextDoc);
      if !(Reviewable(e) && e.feeReviewAt.None?) || e.feeVersion != expected then (s, Refused(409))
      else if !AllIntact(s.docs, ids, storage) then (s, Refused(409))
      else
        (WithTx(s, f, e.(feeVersion := expected + 1, feeReviewAt := Some(now)), Retain(s.docs, ids, now), s.nextDoc,
                [Tx(f, e.submissions, FeeReviewRequested(reason, Manifest(s.docs, ids)), actor.id, now, None)]), Ok)
  }

  const TOTAL_LIMIT: nat := 100_000_000

  function AssessFees(s: State, actor: Actor, f: nat, expected: nat, total: nat, authority: string, storage: Storage, now: Time): (r: (State, Reply))
    ensures (r.1 != Ok ==> r.0 == s) && |r.0.envelopes| == |s.envelopes|
    ensures r.0.payments == s.payments && r.0.calendars == s.calendars && NoMoney(s.txs, r.0.txs)
  {
    if total > TOTAL_LIMIT then (s, Refused(422))
    else if f >= |s.envelopes| then (s, Refused(404))
    else if !IndependentStaff(s, actor, f) then (s, Refused(403))
    else
      var e, ids := s.envelopes[f], CurrentOf(s, f);
      CurrentAre(s.docs, f, s.nextDoc);
      if !Reviewable(e) || e.feeVersion != expected then (s, Refused(409))
      else if !AllIntact(s.docs, ids, storage) then (s, Refused(409))
      else
        var assessed := FeeAssessed(expected + 1, total, authority, AssessmentOf(s, f), Manifest(s.docs, ids));
        (WithTx(s, f, e.(feeVersion := expected + 1, feeReviewAt := None, feeAssessment := Some(|s.txs|)),
                Retain(s.docs, ids, now), s.nextDoc, [Tx(f, e.submissions, assessed, actor.id, now, None)]), Ok)
  }

  datatype WaiverAction = GrantAssistance | GrantLegalServices | Refer | GrantJudicial | DenyJudicial

  predicate MayDecide(e: Envelope, actor: Actor, action: WaiverAction) {
    && WaiverOpen(e) && e.submittedAt.Some? && e.filer != actor.id && !Closed(e.status)
    && if action.GrantJudicial? || action.DenyJudicial? then e.court in actor.judgeOf
       else e.court in actor.clerkOf && e.waiverReferredAt.None?
  }

  function DecideWaiver(s: State, actor: Actor, f: nat, expected: nat, action: WaiverAction, reason: string, due: Option<nat>,
                        order: Option<(string, File)>, now: Time): (r: (State, Reply))
    ensures (r.1 != Ok ==> r.0 == s) && |r.0.envelopes| == |s.envelopes|
    ensures r.0.payments == s.payments && r.0.calendars == s.calendars && NoMoney(s.txs, r.0.txs)
  {
    if f >= |s.envelopes| then (s, Refused(404))
    else
      var e := s.envelopes[f];
      if e.court !in actor.staffOf then (s, Refused(403))
      else if !WaiverOpen(e) then (s, Refused(409))
      else if !MayDecide(e, actor, action) then (s, Refused(403))
      else if e.feeVersion != expected then (s, Refused(409))
      else if action.DenyJudicial? && (reason == "" || due.None?) then (s, Refused(400))
      else if action.Refer? != order.None? then (s, Refused(400))
      else
        var next := e.(feeVersion := e.feeVersion + 1, feeReviewAt := None);
        if order.None? then
          (WithTx(s, f, next.(waiverReferredAt := Some(now)), s.docs, s.nextDoc,
                  [Tx(f, e.submissions, WaiverReferred, actor.id, now, None)]), Ok)
        else
          var doc := Doc(f, order.value.0, order.value.1.(docType := FeeWaiverOrder), now, true, Some(now), None, 0, None);
          var owed := if action.DenyJudicial? then due.value else 0;
          var decided := WaiverDecided(!action.DenyJudicial?, owed, [EntryOf(s.nextDoc, doc)]);
          (WithTx(s, f, next.(waiverGranted := Some(!action.DenyJudicial?), waiverDue := Some(owed)),
                  s.docs[s.nextDoc := doc], s.nextDoc + 1, [Tx(f, e.submissions, decided, actor.id, now, None)]), Ok)
  }

  // ---------------------------------------------------------------- filing-date orders

  datatype DateOrder = DateOrder(date: Day, signed: Day, authority: string, reason: string, caseVersion: Option<nat>)

  function RecordDateOrder(s: State, actor: Actor, f: nat, expected: nat, order: DateOrder, objectKey: string, file: File, now: Time): (r: (State, Reply))
    ensures (r.1 != Ok ==> r.0 == s) && |r.0.envelopes| == |s.envelopes|
    ensures r.0.payments == s.payments && r.0.calendars == s.calendars && NoMoney(s.txs, r.0.txs)
  {
    if order.authority == "" || order.reason == "" then (s, Refused(422))
    else if f >= |s.envelopes| then (s, Refused(404))
    else if !IndependentStaff(s, actor, f) then (s, Refused(403))
    else
      var e := s.envelopes[f];
      if e.filingType.ServiceOnly? || e.status.Served? || e.status.Draft? then (s, Refused(409))
      else if e.dateVersion != expected then (s, Refused(409))
      else if order.caseVersion.Some?
           && (e.case_.None? || e.case_.value >= |s.cases| || s.cases[e.case_.value].court != e.court
               || s.cases[e.case_.value].dateVersion != order.caseVersion.value) then (s, Refused(409))
      else
        var doc := Doc(f, objectKey, file.(docType := FilingDateOrder), now, true, Some(now), None, 0, None);
        var basis := CourtOrder(order.date, s.nextDoc, order.signed, order.authority, e.submissions);
        var ordered := DateOrdered(e.filingDate, e.basis, basis, [EntryOf(s.nextDoc, doc)]);
        (WithTx(s, f, e.(filingDate := Some(order.date), basis := Some(basis), dateVersion := e.dateVersion + 1),
                s.docs[s.nextDoc := doc], s.nextDoc + 1, [Tx(f, e.submissions, ordered, actor.id, now, None)])
           .(cases := if order.caseVersion.None? then s.cases
                      else s.cases[e.case_.value := s.cases[e.case_.value].(filingDate := Some(order.date),
                                                     dateVersion := s.cases[e.case_.value].dateVersion + 1)]), Ok)
  }

  // ---------------------------------------------------------------- public copies

  predicate PublicationBlocked(d: Doc, e: Envelope) {
    PrivateType(d.file.docType) || d.removedAt.Some? || !e.status.Accepted? || e.case_.None?
  }

  /** Why a document is out of an actor's reach for a publication decision. */
  function DocumentError(s: State, actor: Actor, id: nat): Option<nat> {
    if id !in s.docs then Some(404)
    else if s.docs[id].envelope >= |s.envelopes| || !IndependentStaff(s, actor, s.docs[id].envelope) then Some(403)
    else None
  }

  function PrepareCopy(s: State, actor: Actor, id: nat, key: string, title: string, sha: Sha, size: nat): (r: (State, Reply))
    ensures (r.1 != Ok ==> r.0 == s) && |r.0.envelopes| == |s.envelopes|
    ensures r.0.payments == s.payments && r.0.calendars == s.calendars && NoMoney(s.txs, r.0.txs)
  {
    var blocked := DocumentError(s, actor, id);
    if title == "" then (s, Refused(422))
    else if blocked.Some? then (s, Refused(blocked.value))
    else if PublicationBlocked(s.docs[id], s.envelopes[s.docs[id].envelope]) then (s, Refused(409))
    else (s.(copies := s.copies + [Copy(id, key, title, sha, size)]), Ok)
  }

  function CopyEntryOf(s: State, copyId: nat): CopyEntry
    requires 0 < copyId <= |s.copies|
  {
    var c := s.copies[copyId - 1];
    CopyEntry(copyId, c.document, c.title, c.sha, c.size)
  }

  /** The unlocked half of a publication: the prepared copy is read back from storage. */
  function PublishProbe(s: State, actor: Actor, id: nat, copyId: nat, expected: nat, storage: Storage): Reply {
    var blocked := DocumentError(s, actor, id);
    if blocked.Some? then Refused(blocked.value)
    else if s.docs[id].accessVersion != expected then Refused(409)
    else if !(0 < copyId <= |s.copies|) || s.copies[copyId - 1].document != id then Refused(404)
    else
      var c := s.copies[copyId - 1];
      if !(c.key in storage && storage[c.key] == (c.sha, c.size)) then Refused(409) else Ok
  }

  function PublishCopy(s: State, actor: Actor, id: nat, copyId: nat, expected: nat, now: Time): (r: (State, Reply))
    ensures (r.1 != Ok ==> r.0 == s) && |r.0.envelopes| == |s.envelopes|
    ensures r.0.payments == s.payments && r.0.calendars == s.calendars && NoMoney(s.txs, r.0.txs)
  {
    var blocked := DocumentError(s, actor, id);
    if blocked.Some? then (s, Refused(blocked.value))
    else if !(0 < copyId <= |s.copies|) || s.copies[copyId - 1].document != id then (s, Refused(404))
    else
      var d := s.docs[id];
      var f, e := d.envelope, s.envelopes[d.envelope];
      if PublicationBlocked(d, e) then (s, Refused(409))
      else if d.accessVersion != expected then (s, Refused(409))
      else if d.publicCopy == Some(copyId) && d.confidential then (s, Ok)
      else (WithTx(s, f, e, s.docs[id := d.(confidential := true, publicCopy := Some(copyId), accessVersion := expected + 1)], s.nextDoc,
                   [Tx(f, e.submissions, CopyPublished(id, CopyEntryOf(s, copyId)), actor.id, now, None)]), Ok)
  }

  function WithholdDocument(s: State, actor: Actor, id: nat, expected: nat, now: Time): (r: (State, Reply))
    ensures (r.1 != Ok ==> r.0 == s) && |r.0.envelopes| == |s.envelopes|
    ensures r.0.payments == s.payments && r.0.calendars == s.calendars && NoMoney(s.txs, r.0.txs)
  {
    var blocked := DocumentError(s, actor, id);
    if blocked.Some? then (s, Refused(blocked.value))
    else
      var d := s.docs[id];
      var f, e := d.envelope, s.envelopes[d.envelope];
      if d.accessVersion != expected then (s, Refused(409))
      else if e.status.Draft? && d.retainedAt.None? then (s, Refused(409))
      else if d.confidential && d.publicCopy.None? then (s, Ok)
      else (WithTx(s, f, e, s.docs[id := d.(confidential := true, publicCopy := None, accessVersion := expected + 1)], s.nextDoc,
                   [Tx(f, e.submissions, Withheld(id, d.publicCopy), actor.id, now, None)]), Ok)
  }

  // ---------------------------------------------------------------- payments

  function ProcessPayment(cfg: Config, s: State, actor: Actor, f: nat, expected: nat, amount: nat, now: Time): (r: (State, Reply))
    ensures (r.1 != Ok ==> r.0 == s) && |r.0.envelopes| == |s.envelopes|
    ensures r.0.calendars == s.calendars
  {
    if !Owned(s, actor, f) then (s, Refused(OwnerError(s, actor, f)))
    else
      var e, fees := s.envelopes[f], Fees(cfg, s, f);
      if e.feeVersion != expected || fees.balance.None? || !AwaitsPayment(e, fees) then (s, Refused(409))
      else if amount != fees.balance.value then (s, Refused(400))
      else if !cfg.simulatedPayments || !cfg.demo then (s, Refused(503))
      else
        var id := |s.payments|;
        (WithTx(s, f, e.(payment := Some(id), paymentVersion := e.paymentVersion + 1), s.docs, s.nextDoc,
                [Tx(f, e.submissions, PaymentRecorded(id, amount, true), actor.id, now, None)])
           .(payments := s.payments + [Payment(f, actor.id, amount, Completed, true, None)]), Ok)
  }

  predicate PaymentClerk(cfg: Config, s: State, actor: Actor, f: nat) {
    f < |s.envelopes| && actor.id != s.envelopes[f].filer && s.envelopes[f].court in actor.administers && cfg.externalPayments
  }

  function PaymentClerkError(cfg: Config, s: State, actor: Actor, f: nat): nat {
    if f >= |s.envelopes| then 404
    else if actor.id == s.envelopes[f].filer || s.envelopes[f].court !in actor.administers then 403
    else 503
  }

  function FindCredit(payments: seq<Payment>, key: Key): (r: Option<nat>)
    ensures r.Some? ==> r.value < |payments| && payments[r.value].external.Some? && payments[r.value].external.value.key == key
    ensures r.None? ==> forall p | 0 <= p < |payments| :: payments[p].external.Some? ==> payments[p].external.value.key != key
  {
    if payments == [] then None
    else
      var last := |payments| - 1;
      if payments[last].external.Some? && payments[last].external.value.key == key then Some(last)
      else FindCredit(payments[..last], key)
  }

  predicate ReceiptCredited(payments: seq<Payment>, receipt: ReceiptKey) {
    exists p | 0 <= p < |payments| ::
      payments[p].status.Completed? && payments[p].external.Some? && payments[p].external.value.receipt == receipt
  }

  /** Why a new credit is refused. */
  function CreditError(cfg: Config, s: State, r: CreditRequest, now: Time): Option<nat>
    requires r.filing < |s.envelopes|
  {
    var e, fees := s.envelopes[r.filing], Fees(cfg, s, r.filing);
    if r.receivedAt > now || r.amount == 0 then Some(422)
    else if r.feeVersion != e.feeVersion || r.paymentVersion != e.paymentVersion then Some(409)
    else if !(fees.source.CourtAssessment? || fees.source.WaiverDecision?) || !AwaitsPayment(e, fees) then Some(409)
    else if r.amount > fees.balance.value then Some(409)
    else if ReceiptCredited(s.payments, r.receipt) then Some(409)
    else None
  }

  function RecordCredit(cfg: Config, s: State, actor: Actor, key: Key, credit: CreditRequest, now: Time): (r: (State, Reply))
    requires credit.actor == actor.id
    ensures (r.1 != Ok ==> r.0 == s) && |r.0.envelopes| == |s.envelopes|
    ensures r.0.calendars == s.calendars
  {
    var f := credit.filing;
    if !PaymentClerk(cfg, s, actor, f) then (s, Refused(PaymentClerkError(cfg, s, actor, f)))
    else
      var found := FindCredit(s.payments, key);
      if found.Some? then (s, if s.payments[found.value].external.value.request == credit then Replayed else Refused(409))
      else
        var blocked := CreditError(cfg, s, credit, now);
        if blocked.Some? then (s, Refused(blocked.value))
        else
          var e, id := s.envelopes[f], |s.payments|;
          (WithTx(s, f, e.(payment := Some(id), paymentVersion := e.paymentVersion + 1), s.docs, s.nextDoc,
                  [Tx(f, e.submissions, CreditRecorded(id, credit.amount, cfg.demo), actor.id, now, None)])
             .(payments := s.payments + [Payment(f, e.filer, credit.amount, Completed, cfg.demo, Some(External(key, credit.receipt, credit)))]), Ok)
  }

  function ReverseCredit(cfg: Config, s: State, actor: Actor, f: nat, p: nat, expected: nat, now: Time): (r: (State, Reply))
    ensures (r.1 != Ok ==> r.0 == s) && |r.0.envelopes| == |s.envelopes|
    ensures r.0.calendars == s.calendars
  {
    if !PaymentClerk(cfg, s, actor, f) then (s, Refused(PaymentClerkError(cfg, s, actor, f)))
    else if p >= |s.payments| || s.payments[p].envelope != f || s.payments[p].external.None? then (s, Refused(404))
    else if s.payments[p].status.Reversed? then (s, Replayed)
    else if s.envelopes[f].paymentVersion != expected then (s, Refused(409))
    else
      var e, was := s.envelopes[f], s.payments[p];
      (WithTx(s, f, e.(paymentVersion := expected + 1), s.docs, s.nextDoc,
              [Tx(f, e.submissions, CreditReversed(p, was.amount, was.simulated), actor.id, now, None)])
         .(payments := s.payments[p := was.(status := Reversed)]), Ok)
  }

  // ---------------------------------------------------------------- requests

  datatype Request =
    | Create(actor: Actor, key: Key, data: NewFiling, place: Option<Place>, participant: bool)
    | Update(actor: Actor, f: nat, edit: Edit)
    | PutDocument(actor: Actor, f: nat, key: Key, objectKey: string, file: File, filename: string, confidential: bool, now: Time)
    | DropDocument(actor: Actor, f: nat, id: nat, now: Time)
    | Submit(actor: Actor, f: nat, submitKey: Option<Key>, token: SubmissionToken, place: Option<Place>, participant: bool,
             required: bool, prints: seq<Print>, now: Time)
    | Probe(actor: Actor, f: nat, action: Action, count: nat, storage: Storage)
    | Record(actor: Actor, evidence: Evidence, reason: string, place: Option<Place>, cms: CmsResult, now: Time)
    | AskFeeReview(actor: Actor, f: nat, expected: nat, reason: string, storage: Storage, now: Time)
    | Assess(actor: Actor, f: nat, expected: nat, total: nat, reason: string, storage: Storage, now: Time)
    | Waive(actor: Actor, f: nat, expected: nat, waiver: WaiverAction, reason: string, due: Option<nat>, order: Option<(string, File)>, now: Time)
    | OrderDate(actor: Actor, f: nat, expected: nat, dateOrder: DateOrder, objectKey: string, file: File, now: Time)
    | Prepare(actor: Actor, id: nat, objectKey: string, title: string, sha: Sha, size: nat)
    | Publish(actor: Actor, id: nat, copyId: nat, expected: nat, now: Time)
    | Withhold(actor: Actor, id: nat, expected: nat, now: Time)
    | Pay(actor: Actor, f: nat, expected: nat, amount: nat, now: Time)
    | Credit(actor: Actor, key: Key, credit: CreditRequest, now: Time)
    | Reverse(actor: Actor, f: nat, payment: nat, expected: nat, now: Time)
    | NewCalendar(actor: Actor, court: nat, zone: CourtCalendars.Zone, from: Day, through: Day, closed: map<Day, string>)

  /** A review is recorded only on evidence that an earlier check gathered. */
  predicate Possible(s: State, r: Request) {
    && (r.Record? ==> r.evidence in s.reviews && r.evidence.filing < |s.envelopes|)
    && (r.Credit? ==> r.credit.actor == r.actor.id)
  }

  /** A request that is refused or replayed changes nothing. */
  function Apply(cfg: Config, s: State, q: Request): (r: (State, Reply))
    requires Possible(s, q)
    ensures r.1 != Ok ==> r.0 == s
  {
    match q
    case Create(actor, key, data, place, participant) => CreateFiling(s, actor, key, data, place, participant)
    case Update(actor, f, edit) => UpdateDetails(s, actor, f, edit)
    case PutDocument(actor, f, key, objectKey, file, filename, confidential, now) => UploadDocument(s, actor, f, key, objectKey, file, filename, confidential, now)
    case DropDocument(actor, f, id, now) => RemoveDocument(s, actor, f, id, now)
    case Submit(actor, f, key, token, place, participant, required, prints, now) =>
      SubmitFiling(cfg, s, actor, f, key, token, place, participant, required, prints, SubmitAssessment(cfg, s, f, now), now)
    case Probe(actor, f, action, count, storage) => ProbeReview(s, actor, f, action, count, storage)
    case Record(actor, evidence, reason, place, cms, now) =>
      RecordReview(cfg, s, actor, evidence, reason, place, ReviewAssessment(cfg, s, evidence.filing), cms, now)
    case AskFeeReview(actor, f, expected, reason, storage, now) => RequestFeeReview(s, actor, f, expected, reason, storage, now)
    case Assess(actor, f, expected, total, authority, storage, now) => AssessFees(s, actor, f, expected, total, authority, storage, now)
    case Waive(actor, f, expected, waiver, reason, due, order, now) => DecideWaiver(s, actor, f, expected, waiver, reason, due, order, now)
    case OrderDate(actor, f, expected, order, objectKey, file, now) => RecordDateOrder(s, actor, f, expected, order, objectKey, file, now)
    case Prepare(actor, id, objectKey, title, sha, size) => PrepareCopy(s, actor, id, objectKey, title, sha, size)
    case Publish(actor, id, copyId, expected, now) => PublishCopy(s, actor, id, copyId, expected, now)
    case Withhold(actor, id, expected, now) => WithholdDocument(s, actor, id, expected, now)
    case Pay(actor, f, expected, amount, now) => ProcessPayment(cfg, s, actor, f, expected, amount, now)
    case Credit(actor, key, credit, now) => RecordCredit(cfg, s, actor, key, credit, now)
    case Reverse(actor, f, payment, expected, now) => ReverseCredit(cfg, s, actor, f, payment, expected, now)
    case NewCalendar(actor, court, zone, from, through, closed) => PublishCalendar(s, actor, court, zone, from, through, closed)
  }
}
