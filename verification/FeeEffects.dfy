/** What was paid is what the history says, and each fee decision and payment has its stated effect on the fee state. */
module FeeEffects {
  import opened Common
  import opened Filings
  import opened FilingInvariants
  import opened FilingSteps
  import opened FilingRequests
  import opened FilingRuns
  import opened FilingGuarantees
  import opened FeeGuarantees

  // ---------------------------------------------------------------- paid is what the history says

  /** What a history row adds to the amount paid on a filing; simulated money counts only in a demonstration. */
  function Moved(tx: Tx, f: nat, demo: bool): int {
    if tx.filing != f then 0
    else
      match tx.event
      case PaymentRecorded(_, amount, simulated) => if demo || !simulated then amount else 0
      case CreditRecorded(_, amount, simulated) => if demo || !simulated then amount else 0
      case CreditReversed(_, amount, simulated) => if demo || !simulated then 0 - amount else 0
      case _ => 0
  }

  function MovedTotal(txs: seq<Tx>, f: nat, demo: bool): int {
    if txs == [] then 0 else MovedTotal(txs[..|txs| - 1], f, demo) + Moved(txs[|txs| - 1], f, demo)
  }

  lemma {:induction false} NothingMoved(txs: seq<Tx>, n: nat, f: nat, demo: bool)
    requires n <= |txs| && forall i | n <= i < |txs| :: Moved(txs[i], f, demo) == 0
    ensures MovedTotal(txs, f, demo) == MovedTotal(txs[..n], f, demo)
  {
    if n == |txs| {
      assert txs[..n] == txs;
    } else {
      NothingMoved(txs[..|txs| - 1], n, f, demo);
      assert txs[..|txs| - 1][..n] == txs[..n];
    }
  }

  lemma MovedAppend(txs: seq<Tx>, tx: Tx, f: nat, demo: bool)
    ensures MovedTotal(txs + [tx], f, demo) == MovedTotal(txs, f, demo) + Moved(tx, f, demo)
  {
    assert (txs + [tx])[..|txs|] == txs;
  }

  lemma {:induction false} NonePaid(cfg: Config, payments: seq<Payment>, f: nat, filer: nat)
    requires forall p | 0 <= p < |payments| :: payments[p].envelope != f
    ensures Paid(cfg, payments, f, filer) == 0
  {
    if payments != [] { NonePaid(cfg, payments[..|payments| - 1], f, filer); }
  }

  ghost predicate PaidOk(cfg: Config, s: State, f: nat) {
    f < |s.envelopes| ==> Paid(cfg, s.payments, f, s.envelopes[f].filer) == MovedTotal(s.txs, f, cfg.demo)
  }

  lemma PayMoves(cfg: Config, s: State, actor: Actor, g: nat, expected: nat, amount: nat, now: Time, f: nat)
    requires PaidOk(cfg, s, f)
    ensures PaidOk(cfg, ProcessPayment(cfg, s, actor, g, expected, amount, now).0, f)
  {
    hide Fees, Paid, MovedTotal;
    var t := ProcessPayment(cfg, s, actor, g, expected, amount, now).0;
    if t != s && f < |s.envelopes| {
      PaidAppend(cfg, s.payments, t.payments[|s.payments|], f, s.envelopes[f].filer);
      MovedAppend(s.txs, t.txs[|s.txs|], f, cfg.demo);
    }
  }

  lemma CreditMoves(cfg: Config, s: State, actor: Actor, key: Key, credit: CreditRequest, now: Time, f: nat)
    requires PaidOk(cfg, s, f) && credit.actor == actor.id
    ensures PaidOk(cfg, RecordCredit(cfg, s, actor, key, credit, now).0, f)
  {
    hide Fees, Paid, MovedTotal, FindCredit, ReceiptCredited;
    var t := RecordCredit(cfg, s, actor, key, credit, now).0;
    if t != s && f < |s.envelopes| {
      PaidAppend(cfg, s.payments, t.payments[|s.payments|], f, s.envelopes[f].filer);
      MovedAppend(s.txs, t.txs[|s.txs|], f, cfg.demo);
    }
  }

  lemma ReverseMoves(cfg: Config, s: State, actor: Actor, g: nat, p: nat, expected: nat, now: Time, f: nat)
    requires PaidOk(cfg, s, f) && forall k | 0 <= k < |s.payments| :: PaymentOk(s, s.payments[k])
    ensures PaidOk(cfg, ReverseCredit(cfg, s, actor, g, p, expected, now).0, f)
  {
    hide Paid, MovedTotal;
    var t := ReverseCredit(cfg, s, actor, g, p, expected, now).0;
    if t != s && f < |s.envelopes| {
      assert PaymentOk(s, s.payments[p]);
      PaidUpdate(cfg, s.payments, p, f, s.envelopes[f].filer);
      MovedAppend(s.txs, t.txs[|s.txs|], f, cfg.demo);
    }
  }

  lemma OthersMoveNothing(cfg: Config, s: State, t: State, f: nat)
    requires Inv(s) && Grows(s, t) && PaidOk(cfg, s, f) && t.payments == s.payments && NoMoney(s.txs, t.txs)
    ensures PaidOk(cfg, t, f)
  {
    if f < |t.envelopes| {
      assert t.txs[..|s.txs|] == s.txs;
      NothingMoved(t.txs, |s.txs|, f, cfg.demo);
      if f < |s.envelopes| {
        assert EnvGrows(s.envelopes[f], t.envelopes[f]);
      } else {
        assert forall i | 0 <= i < |s.txs| :: TxOk(s, s.txs[i]);
        assert forall p | 0 <= p < |s.payments| :: PaymentOk(s, s.payments[p]);
        hide Inv, Grows, TxOk;
        NonePaid(cfg, t.payments, f, t.envelopes[f].filer);
        assert s.txs[..0] == [];
        NothingMoved(s.txs, 0, f, cfg.demo);
      }
    }
  }

  lemma PaymentsOf(s: State)
    requires Inv(s)
    ensures forall k | 0 <= k < |s.payments| :: PaymentOk(s, s.payments[k])
  {
  }

  lemma RequestMoves(cfg: Config, s: State, q: Request, f: nat)
    requires Inv(s) && Possible(s, q) && PaidOk(cfg, s, f)
    ensures PaidOk(cfg, Apply(cfg, s, q).0, f)
  {
    hide CreateFiling, UpdateDetails, UploadDocument, RemoveDocument, SubmitFiling, ProbeReview, RecordReview, RequestFeeReview,
         AssessFees, DecideWaiver, RecordDateOrder, PrepareCopy, PublishCopy, WithholdDocument, ProcessPayment, RecordCredit, ReverseCredit;
    hide Inv, PaidOk, PaymentOk;
    if q.Pay? {
      PayMoves(cfg, s, q.actor, q.f, q.expected, q.amount, q.now, f);
    } else if q.Credit? {
      CreditMoves(cfg, s, q.actor, q.key, q.credit, q.now, f);
    } else if q.Reverse? {
      PaymentsOf(s);
      ReverseMoves(cfg, s, q.actor, q.f, q.payment, q.expected, q.now, f);
    } else {
      RequestKeeps(cfg, s, q);
      OthersMoveNothing(cfg, s, Apply(cfg, s, q).0, f);
    }
  }

  lemma {:induction false} PaidAt(cfg: Config, r: seq<State>, x: nat, f: nat)
    requires Run(cfg, r) && x < |r|
    ensures PaidOk(cfg, r[x], f)
  {
    hide Inv, Apply;
    if x > 0 {
      PaidAt(cfg, r, x - 1, f);
      RunInv(cfg, r, x - 1);
      assert Step(cfg, r[x - 1], r[x - 1 + 1]);
      var q :| Possible(r[x - 1], q) && r[x] == Apply(cfg, r[x - 1], q).0;
      RequestMoves(cfg, r[x - 1], q, f);
    }
  }

  /** In every reachable state the amount paid is the payments and credits recorded less the credits reversed. */
  lemma PaidIsHistory(cfg: Config, r: seq<State>, x: nat, f: nat)
    requires Run(cfg, r) && x < |r| && f < |r[x].envelopes|
    ensures Fees(cfg, r[x], f).paid == MovedTotal(r[x].txs, f, cfg.demo)
  {
    hide Run;
    PaidAt(cfg, r, x, f);
  }

  // ---------------------------------------------------------------- payments move the balance

  /** Nothing the total depends on changed. */
  ghost predicate SameFee(s: State, t: State, f: nat) {
    && f < |s.envelopes| && f < |t.envelopes| && s.txs <= t.txs
    && t.envelopes[f].(payment := s.envelopes[f].payment, paymentVersion := s.envelopes[f].paymentVersion) == s.envelopes[f]
  }

  lemma SameTotal(cfg: Config, s: State, t: State, f: nat)
    requires SameFee(s, t, f) && FeeOk(s, f)
    ensures Fees(cfg, t, f).total == Fees(cfg, s, f).total && Fees(cfg, t, f).source == Fees(cfg, s, f).source
  {
    var a := s.envelopes[f].feeAssessment;
    if a.Some? { assert t.txs[a.value] == s.txs[a.value]; }
  }

  lemma FeeAt(s: State, f: nat)
    requires Inv(s) && f < |s.envelopes|
    ensures FeeOk(s, f)
  {
    InvEnv(s, f);
  }

  lemma PayShape(cfg: Config, s: State, actor: Actor, f: nat, expected: nat, amount: nat, now: Time)
    requires ProcessPayment(cfg, s, actor, f, expected, amount, now).1 == Ok
    ensures var t := ProcessPayment(cfg, s, actor, f, expected, amount, now).0;
            && SameFee(s, t, f) && Fees(cfg, s, f).balance == Some(amount) && amount > 0
            && Paid(cfg, t.payments, f, t.envelopes[f].filer) == Paid(cfg, s.payments, f, s.envelopes[f].filer) + amount
  {
    hide Fees, Paid;
    var t := ProcessPayment(cfg, s, actor, f, expected, amount, now).0;
    PaidAppend(cfg, s.payments, t.payments[|s.payments|], f, s.envelopes[f].filer);
  }

  /** A payment settles the balance and leaves the total alone. */
  lemma PaymentSettles(cfg: Config, s: State, actor: Actor, f: nat, expected: nat, amount: nat, now: Time)
    requires Inv(s) && ProcessPayment(cfg, s, actor, f, expected, amount, now).1 == Ok
    ensures var t := ProcessPayment(cfg, s, actor, f, expected, amount, now).0;
            && f < |s.envelopes| == |t.envelopes| && amount > 0 && Fees(cfg, t, f).total == Fees(cfg, s, f).total
            && Fees(cfg, s, f).balance == Some(amount) && Fees(cfg, t, f).balance == Some(0)
            && Fees(cfg, t, f).obligationMet && Fees(cfg, t, f).overpaid == 0
  {
    PayShape(cfg, s, actor, f, expected, amount, now);
    hide Inv, ProcessPayment, SourceAndTotal, Paid;
    FeeAt(s, f);
    SameTotal(cfg, s, ProcessPayment(cfg, s, actor, f, expected, amount, now).0, f);
  }

  lemma CreditShape(cfg: Config, s: State, actor: Actor, key: Key, credit: CreditRequest, now: Time)
    requires credit.actor == actor.id && RecordCredit(cfg, s, actor, key, credit, now).1 == Ok
    ensures var t, f := RecordCredit(cfg, s, actor, key, credit, now).0, credit.filing;
            && SameFee(s, t, f) && Fees(cfg, s, f).balance.Some? && 0 < credit.amount <= Fees(cfg, s, f).balance.value
            && Paid(cfg, t.payments, f, t.envelopes[f].filer) == Paid(cfg, s.payments, f, s.envelopes[f].filer) + credit.amount
  {
    hide Fees, Paid, FindCredit, ReceiptCredited;
    var t := RecordCredit(cfg, s, actor, key, credit, now).0;
    PaidAppend(cfg, s.payments, t.payments[|s.payments|], credit.filing, s.envelopes[credit.filing].filer);
  }

  /** A credit lowers the balance by exactly its amount. */
  lemma CreditLowersBalance(cfg: Config, s: State, actor: Actor, key: Key, credit: CreditRequest, now: Time)
    requires Inv(s) && credit.actor == actor.id && RecordCredit(cfg, s, actor, key, credit, now).1 == Ok
    ensures var t, f := RecordCredit(cfg, s, actor, key, credit, now).0, credit.filing;
            && f < |s.envelopes| == |t.envelopes| && credit.amount > 0 && Fees(cfg, t, f).total == Fees(cfg, s, f).total
            && Fees(cfg, s, f).balance.Some? && Fees(cfg, t, f).balance.Some?
            && Fees(cfg, t, f).balance.value == Fees(cfg, s, f).balance.value - credit.amount && Fees(cfg, t, f).overpaid == 0
  {
    CreditShape(cfg, s, actor, key, credit, now);
    hide Inv, RecordCredit, SourceAndTotal, Paid;
    FeeAt(s, credit.filing);
    SameTotal(cfg, s, RecordCredit(cfg, s, actor, key, credit, now).0, credit.filing);
  }

  lemma ReverseShape(cfg: Config, s: State, actor: Actor, f: nat, p: nat, expected: nat, now: Time)
    requires ReverseCredit(cfg, s, actor, f, p, expected, now).1 == Ok && p < |s.payments| && PaymentOk(s, s.payments[p])
    ensures var t := ReverseCredit(cfg, s, actor, f, p, expected, now).0;
            && SameFee(s, t, f) && s.payments[p].external.Some? && s.payments[p].status.Completed?
            && (cfg.demo || !s.payments[p].simulated ==>
                  Paid(cfg, t.payments, f, t.envelopes[f].filer) == Paid(cfg, s.payments, f, s.envelopes[f].filer) - s.payments[p].amount)
  {
    hide Paid;
    PaidUpdate(cfg, s.payments, p, f, s.envelopes[f].filer);
  }

  lemma ReverseInRange(cfg: Config, s: State, actor: Actor, f: nat, p: nat, expected: nat, now: Time)
    requires ReverseCredit(cfg, s, actor, f, p, expected, now).1 == Ok
    ensures p < |s.payments|
  {
  }

  /** Unless there was an overpayment, reversing a credit raises the balance by exactly its amount. */
  lemma ReversalRaisesBalance(cfg: Config, s: State, actor: Actor, f: nat, p: nat, expected: nat, now: Time)
    requires Inv(s) && ReverseCredit(cfg, s, actor, f, p, expected, now).1 == Ok
    ensures p < |s.payments|
    ensures var t, a := ReverseCredit(cfg, s, actor, f, p, expected, now).0, s.payments[p].amount;
            && f < |s.envelopes| == |t.envelopes| && Fees(cfg, t, f).total == Fees(cfg, s, f).total
            && (cfg.demo || !s.payments[p].simulated ==>
                  && Fees(cfg, t, f).paid == Fees(cfg, s, f).paid - a
                  && (Fees(cfg, s, f).total.Some? && Fees(cfg, s, f).overpaid == 0 ==>
                        Fees(cfg, t, f).balance == Some(Fees(cfg, s, f).balance.value + a)))
  {
    ReverseInRange(cfg, s, actor, f, p, expected, now);
    PaymentsOf(s);
    hide Inv;
    ReverseShape(cfg, s, actor, f, p, expected, now);
    hide ReverseCredit, SourceAndTotal, Paid;
    FeeAt(s, f);
    SameTotal(cfg, s, ReverseCredit(cfg, s, actor, f, p, expected, now).0, f);
  }

  // ---------------------------------------------------------------- decisions set the total

  /** An assessment sets the total it was asked for, over the documents then current, and is the court's. */
  lemma AssessmentSetsTotal(cfg: Config, s: State, actor: Actor, f: nat, expected: nat, total: nat, authority: string, storage: Storage, now: Time)
    requires AssessFees(s, actor, f, expected, total, authority, storage, now).1 == Ok
    ensures var t := AssessFees(s, actor, f, expected, total, authority, storage, now).0;
            && f < |s.envelopes| == |t.envelopes| && actor.id != s.envelopes[f].filer
            && Fees(cfg, t, f).source.CourtAssessment? && Fees(cfg, t, f).total == Some(total) && !Fees(cfg, t, f).stale
            && Fees(cfg, t, f).assessment == Some(|s.txs|) && Fees(cfg, t, f).paid == Fees(cfg, s, f).paid
            && t.envelopes[f].feeVersion == s.envelopes[f].feeVersion + 1 && t.envelopes[f].feeReviewAt.None?
            && (Fees(cfg, t, f).obligationMet <==> total <= Fees(cfg, s, f).paid)
  {
    hide Current, Retain, Manifest, Paid;
    var t := AssessFees(s, actor, f, expected, total, authority, storage, now).0;
    assert t.txs[|s.txs|].event.FeeAssessed?;
  }

  lemma NotService(s: State, f: nat)
    requires Inv(s) && f < |s.envelopes| && s.envelopes[f].submittedAt.Some? && !Closed(s.envelopes[f].status)
    ensures !s.envelopes[f].filingType.ServiceOnly?
  {
    InvEnv(s, f);
  }

  lemma DecisionShape(s: State, actor: Actor, f: nat, expected: nat, action: WaiverAction, reason: string, due: Option<nat>,
                      order: Option<(string, File)>, now: Time)
    requires DecideWaiver(s, actor, f, expected, action, reason, due, order, now).1 == Ok
    ensures var t := DecideWaiver(s, actor, f, expected, action, reason, due, order, now).0;
            && f < |s.envelopes| == |t.envelopes| && actor.id != s.envelopes[f].filer && t.payments == s.payments
            && t.envelopes[f].filer == s.envelopes[f].filer
            && WaiverOpen(s.envelopes[f]) && s.envelopes[f].submittedAt.Some? && !Closed(s.envelopes[f].status)
            && t.envelopes[f].filingType == s.envelopes[f].filingType
            && (action.Refer? ==> WaiverOpen(t.envelopes[f]) && t.envelopes[f].waiverReferredAt == Some(now) && t.docs == s.docs)
            && (action.DenyJudicial? ==> due.Some? && reason != "" && t.envelopes[f].waiverGranted == Some(false) && t.envelopes[f].waiverDue == due)
            && (!action.Refer? && !action.DenyJudicial? ==> t.envelopes[f].waiverGranted == Some(true))
  {
  }

  /** A granted waiver leaves nothing to pay, a denial leaves exactly the amount it names, and a referral leaves the question open. */
  lemma WaiverSetsTotal(cfg: Config, s: State, actor: Actor, f: nat, expected: nat, action: WaiverAction, reason: string, due: Option<nat>,
                        order: Option<(string, File)>, now: Time)
    requires Inv(s) && DecideWaiver(s, actor, f, expected, action, reason, due, order, now).1 == Ok
    ensures var t := DecideWaiver(s, actor, f, expected, action, reason, due, order, now).0;
            && f < |s.envelopes| == |t.envelopes|
            && (action.Refer? ==> WaiverOpen(t.envelopes[f]) && t.envelopes[f].waiverReferredAt == Some(now) && Fees(cfg, t, f).obligationMet)
            && (!action.Refer? ==> Fees(cfg, t, f).source.WaiverDecision? && Fees(cfg, t, f).paid == Fees(cfg, s, f).paid)
            && (action.DenyJudicial? ==> due.Some? && Fees(cfg, t, f).total == due && (Fees(cfg, t, f).obligationMet <==> due.value <= Fees(cfg, s, f).paid))
            && (!action.Refer? && !action.DenyJudicial? ==> Fees(cfg, t, f).total == Some(0) && Fees(cfg, t, f).balance == Some(0) && Fees(cfg, t, f).obligationMet)
  {
    DecisionShape(s, actor, f, expected, action, reason, due, order, now);
    hide DecideWaiver, Inv, Paid;
    NotService(s, f);
  }

  /** Who decides what: judges grant or deny by order, clerks grant on assistance or legal services, or refer, until it is referred. */
  predicate Decides(e: Envelope, actor: Actor, action: WaiverAction) {
    match action
    case GrantJudicial => e.court in actor.judgeOf
    case DenyJudicial => e.court in actor.judgeOf
    case _ => e.court in actor.clerkOf && e.waiverReferredAt.None?
  }

  /** A waiver is decided exactly while it is open on a submitted, unclosed filing, by the right official of the court other than the filer, at the version they saw. */
  lemma WaiverDecidedIff(s: State, actor: Actor, f: nat, expected: nat, action: WaiverAction, reason: string, due: Option<nat>,
                         order: Option<(string, File)>, now: Time)
    requires f < |s.envelopes|
    ensures DecideWaiver(s, actor, f, expected, action, reason, due, order, now).1 == Ok <==>
              var e := s.envelopes[f];
              && e.details.waiverRequested && e.waiverGranted.None? && e.submittedAt.Some? && e.status !in {Rejected, Served}
              && e.court in actor.staffOf && e.filer != actor.id && Decides(e, actor, action) && e.feeVersion == expected
              && (action.DenyJudicial? ==> reason != "" && due.Some?) && (action.Refer? <==> order.None?)
  {
  }

  /** Money is taken only for a balance above zero on a filing that is neither rejected nor served and has no undecided waiver. */
  predicate TakesMoney(cfg: Config, s: State, f: nat)
    requires f < |s.envelopes|
  {
    var e, fees := s.envelopes[f], Fees(cfg, s, f);
    && fees.total.Some? && fees.total.value > fees.paid && e.status !in {Rejected, Served}
    && !(e.details.waiverRequested && e.waiverGranted.None?)
  }

  /** A payment goes through exactly for the filer, of exactly what is left of the total, where payments are simulated. */
  lemma PaidIff(cfg: Config, s: State, actor: Actor, f: nat, expected: nat, amount: nat, now: Time)
    requires f < |s.envelopes|
    ensures ProcessPayment(cfg, s, actor, f, expected, amount, now).1 == Ok <==>
              && actor.mayFile && actor.id == s.envelopes[f].filer && s.envelopes[f].feeVersion == expected && TakesMoney(cfg, s, f)
              && amount == Fees(cfg, s, f).total.value - Fees(cfg, s, f).paid && cfg.demo && cfg.simulatedPayments
  {
    hide SourceAndTotal, Paid;
  }

  /** A new credit goes through exactly for the court's administrators other than the filer, of at most what a court decision leaves to pay, on a receipt not yet credited. */
  lemma CreditedIff(cfg: Config, s: State, actor: Actor, key: Key, credit: CreditRequest, now: Time)
    requires credit.actor == actor.id && credit.filing < |s.envelopes| && FindCredit(s.payments, key).None?
    ensures RecordCredit(cfg, s, actor, key, credit, now).1 == Ok <==>
              var f, e, fees := credit.filing, s.envelopes[credit.filing], Fees(cfg, s, credit.filing);
              && cfg.externalPayments && e.court in actor.administers && e.filer != actor.id
              && credit.feeVersion == e.feeVersion && credit.paymentVersion == e.paymentVersion
              && (fees.source.CourtAssessment? || fees.source.WaiverDecision?) && TakesMoney(cfg, s, f)
              && 0 < credit.amount <= fees.total.value - fees.paid && credit.receivedAt <= now
              && (forall p | 0 <= p < |s.payments| :: !(s.payments[p].external.Some? && s.payments[p].status.Completed? && s.payments[p].external.value.receipt == credit.receipt))
  {
    hide SourceAndTotal, Paid, FindCredit;
  }

  /** The fee of the filing is open to review: it is no service record, not rejected, and no waiver was asked for or decided. */
  predicate OpenToReview(e: Envelope) {
    e.filingType != ServiceOnly && e.status !in {Rejected, Served} && !e.details.waiverRequested && e.waiverGranted.None?
  }

  /** A fee review is requested exactly by the filer, once at a time, with a reason, over intact documents. */
  lemma FeeReviewIff(s: State, actor: Actor, f: nat, expected: nat, reason: string, storage: Storage, now: Time)
    requires f < |s.envelopes| && DocsOk(s)
    ensures RequestFeeReview(s, actor, f, expected, reason, storage, now).1 == Ok <==>
              var e := s.envelopes[f];
              && actor.mayFile && actor.id == e.filer && OpenToReview(e) && e.feeReviewAt.None? && e.feeVersion == expected && reason != ""
              && (exists id :: IsCurrent(s.docs, f, id))
              && (forall id | IsCurrent(s.docs, f, id) :: s.docs[id].key in storage && storage[s.docs[id].key] == (s.docs[id].file.sha, s.docs[id].file.size))
  {
    IntactAre(s, f, storage);
    hide Current, Retain, Manifest, DocsOk, AllIntact;
  }

  /** Fees are assessed exactly by the court's staff other than the filer, within the limit, over intact documents. */
  lemma AssessedIff(s: State, actor: Actor, f: nat, expected: nat, total: nat, authority: string, storage: Storage, now: Time)
    requires f < |s.envelopes| && DocsOk(s)
    ensures AssessFees(s, actor, f, expected, total, authority, storage, now).1 == Ok <==>
              var e := s.envelopes[f];
              && e.court in actor.staffOf && actor.id != e.filer && OpenToReview(e) && e.feeVersion == expected && total <= 100_000_000
              && (exists id :: IsCurrent(s.docs, f, id))
              && (forall id | IsCurrent(s.docs, f, id) :: s.docs[id].key in storage && storage[s.docs[id].key] == (s.docs[id].file.sha, s.docs[id].file.size))
  {
    IntactAre(s, f, storage);
    hide Current, Retain, Manifest, DocsOk, AllIntact, AssessmentOf;
  }

  lemma IntactAre(s: State, f: nat, storage: Storage)
    requires DocsOk(s)
    ensures Stored(s.docs, CurrentOf(s, f))
    ensures AllIntact(s.docs, CurrentOf(s, f), storage) <==>
              && (exists id :: IsCurrent(s.docs, f, id))
              && (forall id | IsCurrent(s.docs, f, id) :: s.docs[id].key in storage && storage[s.docs[id].key] == (s.docs[id].file.sha, s.docs[id].file.size))
  {
    CurrentAre(s.docs, f, s.nextDoc);
    var ids := CurrentOf(s, f);
    forall id | IsCurrent(s.docs, f, id) ensures id in ids { assert DocOk(s, id); }
    hide Current, DocsOk;
    if ids != [] { assert IsCurrent(s.docs, f, ids[0]); }
    if AllIntact(s.docs, ids, storage) {
      forall id | IsCurrent(s.docs, f, id) ensures Intact(s.docs[id], storage) {
        var k :| 0 <= k < |ids| && ids[k] == id;
      }
    }
  }

  /** A credit is reversed exactly when the page lets the viewer manage credits, once, at the version it showed. */
  lemma ReversalIffOffered(cfg: Config, s: State, actor: Actor, f: nat, p: nat, expected: nat, now: Time)
    requires f < |s.envelopes|
    ensures ReverseCredit(cfg, s, actor, f, p, expected, now).1 == Ok <==>
              && PermissionsOf(cfg, s, f, Some(actor)).manageCredits && p < |s.payments| && s.payments[p].envelope == f
              && s.payments[p].external.Some? && s.payments[p].status.Completed? && s.envelopes[f].paymentVersion == expected
  {
    hide Fees;
  }

  /** The page offers a waiver request exactly when switching it on would go through. */
  lemma WaiverRequestIffOffered(cfg: Config, s: State, actor: Actor, f: nat)
    requires Inv(s) && f < |s.envelopes| && !s.envelopes[f].details.waiverRequested
    requires s.envelopes[f].waiverGranted.None? && !s.envelopes[f].filingType.ServiceOnly?
    ensures PermissionsOf(cfg, s, f, Some(actor)).requestWaiver <==>
              UpdateDetails(s, actor, f, Edit(Some(TokenOf(s, f)), None, None, Some(true), None)).1 == Ok
  {
    DraftUnsubmitted(s, f);
    hide Fees, Inv;
  }

  lemma DraftUnsubmitted(s: State, f: nat)
    requires Inv(s) && f < |s.envelopes|
    ensures s.envelopes[f].status.Draft? <==> s.envelopes[f].submittedAt.None?
  {
    InvEnv(s, f);
  }

  /** Outside a demonstration an amount is due only by the court: a service record or granted waiver owes nothing, a denial or a current assessment what it says. */
  lemma TotalHasBasis(cfg: Config, s: State, f: nat)
    requires f < |s.envelopes| && !cfg.demo
    ensures var fees, e := Fees(cfg, s, f), s.envelopes[f];
            && !fees.source.DemoExample?
            && (fees.total.Some? ==>
                  || (e.filingType.ServiceOnly? && fees.total == Some(0))
                  || (e.waiverGranted == Some(true) && fees.total == Some(0))
                  || (e.waiverGranted == Some(false) && fees.total == e.waiverDue)
                  || (exists i | 0 <= i < |s.txs| :: s.txs[i].filing == f && s.txs[i].event.FeeAssessed?
                                                     && s.txs[i].event.version == e.feeVersion && fees.total == Some(s.txs[i].event.total)))
            && (fees.total.None? ==> (fees.obligationMet <==> e.details.waiverRequested && e.waiverGranted.None?))
  {
    hide Paid;
  }

  // ---------------------------------------------------------------- a waiver decision stands

  /** The waiver question is closed, and nothing reopens or changes the answer. */
  ghost predicate AnswerKept(s: State, t: State, f: nat) {
    f < |s.envelopes| && s.envelopes[f].waiverGranted.Some? ==>
      f < |t.envelopes| && t.envelopes[f].waiverGranted == s.envelopes[f].waiverGranted && t.envelopes[f].waiverDue == s.envelopes[f].waiverDue
  }

  lemma AnswerOfFees(cfg: Config, s: State, q: Request, f: nat)
    requires q.AskFeeReview? || q.Assess? || q.Waive? || q.OrderDate?
    ensures Possible(s, q) && AnswerKept(s, Apply(cfg, s, q).0, f)
  {
    hide Retain, Current, AssessmentOf;
  }

  lemma AnswerOfSubmission(cfg: Config, s: State, q: Request, f: nat)
    requires q.Submit?
    ensures Possible(s, q) && AnswerKept(s, Apply(cfg, s, q).0, f)
  {
    hide Fees, SubmissionTokenOf, Complete, Retain, Current, KeyUsed, DestinationError;
  }

  lemma AnswerOfReview(cfg: Config, s: State, q: Request, f: nat)
    requires Possible(s, q) && q.Record?
    ensures AnswerKept(s, Apply(cfg, s, q).0, f)
  {
    hide DestinationError, LockedPrints, ReviewAssessment;
  }

  lemma AnswerStep(cfg: Config, s: State, q: Request, f: nat)
    requires Possible(s, q)
    ensures AnswerKept(s, Apply(cfg, s, q).0, f)
  {
    hide Apply;
    if q.AskFeeReview? || q.Assess? || q.Waive? || q.OrderDate? {
      AnswerOfFees(cfg, s, q, f);
    } else if q.Pay? || q.Credit? || q.Reverse? {
      if f < |s.envelopes| { BasisOfPayments(cfg, s, q, f); }
    } else if q.Submit? {
      AnswerOfSubmission(cfg, s, q, f);
    } else if q.Record? {
      AnswerOfReview(cfg, s, q, f);
    } else {
      if f < |s.envelopes| { BasisOfDocuments(cfg, s, q, f); }
    }
  }

  lemma {:induction false} AnswerStands(cfg: Config, r: seq<State>, i: nat, j: nat, f: nat)
    requires Run(cfg, r) && i <= j < |r|
    ensures AnswerKept(r[i], r[j], f)
  {
    hide Inv, Apply;
    if i < j {
      AnswerStands(cfg, r, i, j - 1, f);
      assert Step(cfg, r[j - 1], r[j - 1 + 1]);
      var q :| Possible(r[j - 1], q) && r[j] == Apply(cfg, r[j - 1], q).0;
      AnswerStep(cfg, r[j - 1], q, f);
    }
  }

  /** Once a waiver is decided, the decision sets the total in every later state, whatever is assessed, filed or paid. */
  lemma WaiverDecisionStands(cfg: Config, r: seq<State>, i: nat, j: nat, actor: Actor, f: nat, expected: nat, action: WaiverAction,
                             reason: string, due: Option<nat>, order: Option<(string, File)>, now: Time)
    requires Run(cfg, r) && i < j < |r| && !action.Refer?
    requires DecideWaiver(r[i], actor, f, expected, action, reason, due, order, now) == (r[i + 1], Ok)
    ensures f < |r[j].envelopes| && Fees(cfg, r[j], f).source.WaiverDecision?
    ensures Fees(cfg, r[j], f).total == if action.DenyJudicial? then due else Some(0)
  {
    hide Run, Inv, DecideWaiver;
    DecisionShape(r[i], actor, f, expected, action, reason, due, order, now);
    RunInv(cfg, r, i);
    NotService(r[i], f);
    AnswerStands(cfg, r, i + 1, j, f);
    RunGrows(cfg, r, i + 1, j);
    assert EnvGrows(r[i + 1].envelopes[f], r[j].envelopes[f]);
  }
}
