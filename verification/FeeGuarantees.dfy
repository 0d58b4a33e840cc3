/** Fees and payments over whole runs: what an assessment covers, overpayment, and the credit ledger. */
module FeeGuarantees {
  import opened Common
  import opened Filings
  import opened FilingInvariants
  import opened FilingSteps
  import opened FilingRequests
  import opened FilingRuns

  // ---------------------------------------------------------------- what an assessment covers

  /** A fee state whose source is the court rests on an assessment of exactly the current documents. */
  lemma CourtFeeCoversDocuments(cfg: Config, r: seq<State>, x: nat, f: nat)
    requires Run(cfg, r) && x < |r| && f < |r[x].envelopes| && Fees(cfg, r[x], f).source.CourtAssessment?
    ensures var s, fees := r[x], Fees(cfg, r[x], f);
            && fees.assessment.Some? && fees.assessment.value < |s.txs| && s.txs[fees.assessment.value].filing == f
            && s.txs[fees.assessment.value].event.FeeAssessed? && fees.total == Some(s.txs[fees.assessment.value].event.total)
            && HeldPrints(s, f) == EntryPrints(s.txs[fees.assessment.value].event.documents)
  {
    RunInv(cfg, r, x);
    hide Run;
    InvEnv(r[x], f);
    hide Inv;
  }

  lemma DocumentChangeStep(cfg: Config, s: State, t: State, f: nat)
    requires Inv(s) && Step(cfg, s, t) && f < |s.envelopes|
    ensures f < |t.envelopes| && s.envelopes[f].feeVersion <= t.envelopes[f].feeVersion
    ensures HeldPrints(s, f) != HeldPrints(t, f) ==> s.envelopes[f].feeVersion < t.envelopes[f].feeVersion
  {
    InvDocs(s);
    hide Inv, Step, DocsOk;
    StepKeeps(cfg, s, t);
    assert EnvGrows(s.envelopes[f], t.envelopes[f]);
    if SameHeld(s, t, f) { HeldSame(s, t, f); }
  }

  /** Whatever changes a filing's current documents strictly raises its fee version. */
  lemma {:induction false} DocumentChangeRaisesVersion(cfg: Config, r: seq<State>, i: nat, j: nat, f: nat)
    requires Run(cfg, r) && i <= j < |r| && f < |r[i].envelopes|
    ensures f < |r[j].envelopes| && r[i].envelopes[f].feeVersion <= r[j].envelopes[f].feeVersion
    ensures HeldPrints(r[i], f) != HeldPrints(r[j], f) ==> r[i].envelopes[f].feeVersion < r[j].envelopes[f].feeVersion
  {
    hide Inv, Step, HeldPrints;
    if i < j {
      DocumentChangeRaisesVersion(cfg, r, i, j - 1, f);
      RunInv(cfg, r, j - 1);
      assert Step(cfg, r[j - 1], r[j - 1 + 1]);
      DocumentChangeStep(cfg, r[j - 1], r[j], f);
    }
  }

  // ---------------------------------------------------------------- balance and overpayment

  /**
   Balance less overpayment is total less paid, and at most one of them is positive; the obligation
   is met exactly when the total is paid or a requested waiver is undecided.
   */
  lemma BalanceAndOverpayment(cfg: Config, s: State, f: nat)
    requires f < |s.envelopes|
    ensures var fees := Fees(cfg, s, f);
            && (fees.total.Some? <==> fees.balance.Some?) && (fees.total.None? ==> fees.overpaid == 0)
            && (fees.total.Some? ==> fees.balance.value - fees.overpaid == fees.total.value - fees.paid
                                     && (fees.balance.value == 0 || fees.overpaid == 0))
            && (fees.obligationMet <==> (fees.total.Some? && fees.total.value <= fees.paid)
                                        || (s.envelopes[f].details.waiverRequested && s.envelopes[f].waiverGranted.None?))
  {
  }

  lemma {:induction false} PaidUpdate(cfg: Config, payments: seq<Payment>, p: nat, f: nat, filer: nat)
    requires p < |payments|
    ensures Paid(cfg, payments[p := payments[p].(status := Reversed)], f, filer)
         == Paid(cfg, payments, f, filer) - if Counts(cfg, payments[p], f, filer) then payments[p].amount else 0
  {
    var n := |payments| - 1;
    var changed := payments[p := payments[p].(status := Reversed)];
    if p == n {
      assert changed[..n] == payments[..n];
    } else {
      assert changed[..n] == payments[..n][p := payments[p].(status := Reversed)];
      PaidUpdate(cfg, payments[..n], p, f, filer);
    }
  }

  lemma PaidAppend(cfg: Config, payments: seq<Payment>, p: Payment, f: nat, filer: nat)
    ensures Paid(cfg, payments + [p], f, filer) == Paid(cfg, payments, f, filer) + if Counts(cfg, p, f, filer) then p.amount else 0
  {
    assert (payments + [p])[..|payments|] == payments;
  }

  /** At most the balance that was due is added to what the filer of `f` has paid. */
  ghost predicate WithinBalance(cfg: Config, s: State, payments: seq<Payment>, f: nat)
    requires f < |s.envelopes|
  {
    var before, after, fees := Paid(cfg, s.payments, f, s.envelopes[f].filer), Paid(cfg, payments, f, s.envelopes[f].filer), Fees(cfg, s, f);
    after <= before || (fees.balance.Some? && after <= before + fees.balance.value)
  }

  lemma PaidByPay(cfg: Config, s: State, actor: Actor, g: nat, expected: nat, amount: nat, now: Time, f: nat)
    requires f < |s.envelopes|
    ensures WithinBalance(cfg, s, ProcessPayment(cfg, s, actor, g, expected, amount, now).0.payments, f)
  {
    hide Fees, Paid;
    var t := ProcessPayment(cfg, s, actor, g, expected, amount, now).0;
    if t != s { PaidAppend(cfg, s.payments, t.payments[|s.payments|], f, s.envelopes[f].filer); }
  }

  lemma PaidByCredit(cfg: Config, s: State, actor: Actor, key: Key, credit: CreditRequest, now: Time, f: nat)
    requires f < |s.envelopes| && credit.actor == actor.id
    ensures WithinBalance(cfg, s, RecordCredit(cfg, s, actor, key, credit, now).0.payments, f)
  {
    hide Fees, Paid, FindCredit, ReceiptCredited;
    var t := RecordCredit(cfg, s, actor, key, credit, now).0;
    if t != s { PaidAppend(cfg, s.payments, t.payments[|s.payments|], f, s.envelopes[f].filer); }
  }

  lemma PaidByReverse(cfg: Config, s: State, actor: Actor, g: nat, p: nat, expected: nat, now: Time, f: nat)
    requires f < |s.envelopes|
    ensures WithinBalance(cfg, s, ReverseCredit(cfg, s, actor, g, p, expected, now).0.payments, f)
  {
    hide Fees, Paid;
    var t := ReverseCredit(cfg, s, actor, g, p, expected, now).0;
    if t != s { PaidUpdate(cfg, s.payments, p, f, s.envelopes[f].filer); }
  }

  /** A request adds to what a filer has paid at most the balance that was due. */
  lemma PaidWithinBalance(cfg: Config, s: State, q: Request, f: nat)
    requires Possible(s, q) && f < |s.envelopes|
    ensures WithinBalance(cfg, s, Apply(cfg, s, q).0.payments, f)
  {
    hide CreateFiling, UpdateDetails, UploadDocument, RemoveDocument, SubmitFiling, ProbeReview, RecordReview, RequestFeeReview,
         AssessFees, DecideWaiver, RecordDateOrder, PrepareCopy, PublishCopy, WithholdDocument, ProcessPayment, RecordCredit, ReverseCredit;
    hide Fees, Paid;
    if q.Pay? {
      PaidByPay(cfg, s, q.actor, q.f, q.expected, q.amount, q.now, f);
    } else if q.Credit? {
      PaidByCredit(cfg, s, q.actor, q.key, q.credit, q.now, f);
    } else if q.Reverse? {
      PaidByReverse(cfg, s, q.actor, q.f, q.payment, q.expected, q.now, f);
    } else {
      assert Apply(cfg, s, q).0.payments == s.payments;
    }
  }

  lemma OverpaidStep(cfg: Config, s: State, t: State, f: nat)
    requires Inv(s) && Step(cfg, s, t) && f < |s.envelopes| && Fees(cfg, s, f).overpaid == 0
    ensures f < |t.envelopes| && (Fees(cfg, t, f).total == Fees(cfg, s, f).total ==> Fees(cfg, t, f).overpaid == 0)
  {
    hide Inv, Apply;
    var q :| Possible(s, q) && t == Apply(cfg, s, q).0;
    StepKeeps(cfg, s, t);
    assert EnvGrows(s.envelopes[f], t.envelopes[f]);
    PaidWithinBalance(cfg, s, q, f);
  }

  /** While the total stays the same, no payment, credit or reversal makes an overpayment. */
  lemma {:induction false} OverpaymentFollowsTotal(cfg: Config, r: seq<State>, i: nat, j: nat, f: nat)
    requires Run(cfg, r) && i <= j < |r| && f < |r[i].envelopes| && Fees(cfg, r[i], f).overpaid == 0
    requires forall k | i <= k <= j :: f < |r[k].envelopes| && Fees(cfg, r[k], f).total == Fees(cfg, r[i], f).total
    ensures f < |r[j].envelopes| && Fees(cfg, r[j], f).overpaid == 0
  {
    hide Inv, Step, Fees;
    if i < j {
      OverpaymentFollowsTotal(cfg, r, i, j - 1, f);
      RunInv(cfg, r, j - 1);
      assert Step(cfg, r[j - 1], r[j - 1 + 1]);
      OverpaidStep(cfg, r[j - 1], r[j], f);
    }
  }

  // ---------------------------------------------------------------- the fee page offers what the endpoints allow

  /** A payment goes through exactly when the page offers it to the payer, at the version and amount it showed. */
  lemma PayIffOffered(cfg: Config, s: State, actor: Actor, f: nat, expected: nat, amount: nat, now: Time)
    requires f < |s.envelopes|
    ensures ProcessPayment(cfg, s, actor, f, expected, amount, now).1 == Ok <==>
              && PermissionsOf(cfg, s, f, Some(actor)).pay && s.envelopes[f].feeVersion == expected
              && Fees(cfg, s, f).balance == Some(amount) && cfg.simulatedPayments && cfg.demo
  {
    hide Fees;
  }

  /** A fee review request goes through exactly when the page offers it, with a reason and intact documents. */
  lemma ReviewRequestIffOffered(cfg: Config, s: State, actor: Actor, f: nat, expected: nat, reason: string, storage: Storage, now: Time)
    requires f < |s.envelopes|
    ensures Stored(s.docs, CurrentOf(s, f))
    ensures RequestFeeReview(s, actor, f, expected, reason, storage, now).1 == Ok <==>
              && PermissionsOf(cfg, s, f, Some(actor)).requestReview && s.envelopes[f].feeVersion == expected
              && reason != "" && AllIntact(s.docs, CurrentOf(s, f), storage)
  {
    CurrentAre(s.docs, f, s.nextDoc);
    hide Fees, Current, Retain, Manifest;
  }

  lemma AssessmentIffOffered(cfg: Config, s: State, actor: Actor, f: nat, expected: nat, total: nat, authority: string, storage: Storage, now: Time)
    requires f < |s.envelopes|
    ensures Stored(s.docs, CurrentOf(s, f))
    ensures AssessFees(s, actor, f, expected, total, authority, storage, now).1 == Ok <==>
              && PermissionsOf(cfg, s, f, Some(actor)).assess && s.envelopes[f].feeVersion == expected
              && total <= TOTAL_LIMIT && AllIntact(s.docs, CurrentOf(s, f), storage)
  {
    CurrentAre(s.docs, f, s.nextDoc);
    hide Fees, Current, Retain, Manifest, AssessmentOf;
  }

  /** A new credit goes through exactly when the page offers it, at the versions it showed and for no more than is due. */
  lemma CreditIffOffered(cfg: Config, s: State, actor: Actor, key: Key, credit: CreditRequest, now: Time)
    requires credit.actor == actor.id && credit.filing < |s.envelopes|
    ensures RecordCredit(cfg, s, actor, key, credit, now).1 == Ok <==>
              && PermissionsOf(cfg, s, credit.filing, Some(actor)).recordCredit && FindCredit(s.payments, key).None?
              && s.envelopes[credit.filing].feeVersion == credit.feeVersion && s.envelopes[credit.filing].paymentVersion == credit.paymentVersion
              && Fees(cfg, s, credit.filing).balance.Some? && 0 < credit.amount <= Fees(cfg, s, credit.filing).balance.value
              && credit.receivedAt <= now && !ReceiptCredited(s.payments, credit.receipt)
  {
    hide Fees, FindCredit, ReceiptCredited;
  }

  // ---------------------------------------------------------------- the credit ledger

  function CourtOf(envelopes: seq<Envelope>, f: nat): Option<nat> {
    if f < |envelopes| then Some(envelopes[f].court) else None
  }

  /** The signed amount of an event in one court's register of simulated or real credits. */
  function Signed(envelopes: seq<Envelope>, tx: Tx, court: nat, simulated: bool): int {
    if !IsCredit(tx.event) || CourtOf(envelopes, tx.filing) != Some(court) || tx.event.simulated != simulated then 0
    else if tx.event.CreditReversed? then 0 - tx.event.amount
    else tx.event.amount
  }

  /** Credits less reversals over the whole history. */
  function Net(envelopes: seq<Envelope>, txs: seq<Tx>, court: nat, simulated: bool): int {
    if txs == [] then 0
    else Net(envelopes, txs[..|txs| - 1], court, simulated) + Signed(envelopes, txs[|txs| - 1], court, simulated)
  }

  function Standing(p: Payment, envelopes: seq<Envelope>, court: nat, simulated: bool): int {
    if p.external.Some? && p.status.Completed? && CourtOf(envelopes, p.envelope) == Some(court) && p.simulated == simulated then p.amount else 0
  }

  /** The court's external payments that still stand. */
  function StandingTotal(envelopes: seq<Envelope>, payments: seq<Payment>, court: nat, simulated: bool): int {
    if payments == [] then 0
    else StandingTotal(envelopes, payments[..|payments| - 1], court, simulated) + Standing(payments[|payments| - 1], envelopes, court, simulated)
  }

  lemma {:induction false} NetSame(a: seq<Envelope>, b: seq<Envelope>, txs: seq<Tx>, court: nat, simulated: bool)
    requires forall i | 0 <= i < |txs| :: CourtOf(a, txs[i].filing) == CourtOf(b, txs[i].filing)
    ensures Net(a, txs, court, simulated) == Net(b, txs, court, simulated)
  {
    if txs != [] { NetSame(a, b, txs[..|txs| - 1], court, simulated); }
  }

  lemma {:induction false} NetAppend(e: seq<Envelope>, txs: seq<Tx>, more: seq<Tx>, court: nat, simulated: bool)
    ensures Net(e, txs + more, court, simulated) == Net(e, txs, court, simulated) + Net(e, more, court, simulated)
  {
    if more == [] {
      assert txs + more == txs;
    } else {
      var n := |more| - 1;
      assert (txs + more)[..|txs| + n] == txs + more[..n];
      NetAppend(e, txs, more[..n], court, simulated);
    }
  }

  lemma {:induction false} NoNet(e: seq<Envelope>, more: seq<Tx>, court: nat, simulated: bool)
    requires forall i | 0 <= i < |more| :: !IsCredit(more[i].event)
    ensures Net(e, more, court, simulated) == 0
  {
    if more != [] { NoNet(e, more[..|more| - 1], court, simulated); }
  }

  lemma {:induction false} StandingSame(a: seq<Envelope>, b: seq<Envelope>, payments: seq<Payment>, court: nat, simulated: bool)
    requires forall p | 0 <= p < |payments| :: CourtOf(a, payments[p].envelope) == CourtOf(b, payments[p].envelope)
    ensures StandingTotal(a, payments, court, simulated) == StandingTotal(b, payments, court, simulated)
  {
    if payments != [] { StandingSame(a, b, payments[..|payments| - 1], court, simulated); }
  }

  lemma {:induction false} StandingUpdate(e: seq<Envelope>, payments: seq<Payment>, p: nat, q: Payment, court: nat, simulated: bool)
    requires p < |payments|
    ensures StandingTotal(e, payments[p := q], court, simulated)
         == StandingTotal(e, payments, court, simulated) - Standing(payments[p], e, court, simulated) + Standing(q, e, court, simulated)
  {
    var n := |payments| - 1;
    if p == n {
      assert payments[p := q][..n] == payments[..n];
    } else {
      assert payments[p := q][..n] == payments[..n][p := q];
      StandingUpdate(e, payments[..n], p, q, court, simulated);
    }
  }

  lemma StandingAppend(e: seq<Envelope>, payments: seq<Payment>, q: Payment, court: nat, simulated: bool)
    ensures StandingTotal(e, payments + [q], court, simulated) == StandingTotal(e, payments, court, simulated) + Standing(q, e, court, simulated)
  {
    assert (payments + [q])[..|payments|] == payments;
  }

  ghost predicate LedgerOk(s: State, court: nat, simulated: bool) {
    Net(s.envelopes, s.txs, court, simulated) == StandingTotal(s.envelopes, s.payments, court, simulated)
  }

  /** Courts never change, so neither does what earlier rows say about one. */
  lemma LedgerFrame(s: State, t: State, court: nat, simulated: bool)
    requires Inv(s) && Grows(s, t)
    ensures Net(t.envelopes, s.txs, court, simulated) == Net(s.envelopes, s.txs, court, simulated)
    ensures StandingTotal(t.envelopes, s.payments, court, simulated) == StandingTotal(s.envelopes, s.payments, court, simulated)
    ensures Net(t.envelopes, t.txs, court, simulated)
         == Net(s.envelopes, s.txs, court, simulated) + Net(t.envelopes, t.txs[|s.txs|..], court, simulated)
  {
    assert forall f | 0 <= f < |s.envelopes| :: EnvGrows(s.envelopes[f], t.envelopes[f]);
    assert forall i | 0 <= i < |s.txs| :: TxOk(s, s.txs[i]);
    assert forall p | 0 <= p < |s.payments| :: PaymentOk(s, s.payments[p]);
    hide Inv;
    NetSame(t.envelopes, s.envelopes, s.txs, court, simulated);
    StandingSame(t.envelopes, s.envelopes, s.payments, court, simulated);
    assert t.txs == s.txs + t.txs[|s.txs|..];
    NetAppend(t.envelopes, s.txs, t.txs[|s.txs|..], court, simulated);
  }

  lemma OneNet(e: seq<Envelope>, tx: Tx, court: nat, simulated: bool)
    ensures Net(e, [tx], court, simulated) == Signed(e, tx, court, simulated)
  {
    assert [tx][..0] == [];
  }

  lemma LedgerAdds(s: State, t: State, tx: Tx, p: Payment, court: nat, simulated: bool)
    requires Inv(s) && Grows(s, t) && LedgerOk(s, court, simulated) && t.txs == s.txs + [tx] && t.payments == s.payments + [p]
    requires Signed(t.envelopes, tx, court, simulated) == Standing(p, t.envelopes, court, simulated)
    ensures LedgerOk(t, court, simulated)
  {
    LedgerFrame(s, t, court, simulated);
    hide Inv, Grows, Net, StandingTotal, Signed, Standing;
    assert t.txs[|s.txs|..] == [tx];
    OneNet(t.envelopes, tx, court, simulated);
    StandingAppend(t.envelopes, s.payments, p, court, simulated);
  }

  lemma LedgerReverses(s: State, t: State, tx: Tx, p: nat, court: nat, simulated: bool)
    requires Inv(s) && Grows(s, t) && LedgerOk(s, court, simulated) && t.txs == s.txs + [tx] && p < |s.payments|
    requires t.payments == s.payments[p := t.payments[p]]
    requires Signed(t.envelopes, tx, court, simulated) == Standing(t.payments[p], t.envelopes, court, simulated) - Standing(s.payments[p], t.envelopes, court, simulated)
    ensures LedgerOk(t, court, simulated)
  {
    LedgerFrame(s, t, court, simulated);
    hide Inv, Grows, Net, StandingTotal, Signed, Standing;
    assert t.txs[|s.txs|..] == [tx];
    OneNet(t.envelopes, tx, court, simulated);
    StandingUpdate(t.envelopes, s.payments, p, t.payments[p], court, simulated);
  }

  lemma LedgerPay(cfg: Config, s: State, actor: Actor, f: nat, expected: nat, amount: nat, now: Time, court: nat, simulated: bool)
    requires Inv(s) && LedgerOk(s, court, simulated)
    ensures LedgerOk(ProcessPayment(cfg, s, actor, f, expected, amount, now).0, court, simulated)
  {
    hide Inv, Fees, LedgerOk, Grows;
    PayKeeps(cfg, s, actor, f, expected, amount, now);
    var t := ProcessPayment(cfg, s, actor, f, expected, amount, now).0;
    if t != s { LedgerAdds(s, t, t.txs[|s.txs|], t.payments[|s.payments|], court, simulated); }
  }

  lemma LedgerCredit(cfg: Config, s: State, actor: Actor, key: Key, credit: CreditRequest, now: Time, court: nat, simulated: bool)
    requires Inv(s) && LedgerOk(s, court, simulated) && credit.actor == actor.id
    ensures LedgerOk(RecordCredit(cfg, s, actor, key, credit, now).0, court, simulated)
  {
    hide Inv, CreditError, LedgerOk, Grows, FindCredit;
    CreditKeeps(cfg, s, actor, key, credit, now);
    var t := RecordCredit(cfg, s, actor, key, credit, now).0;
    if t != s { LedgerAdds(s, t, t.txs[|s.txs|], t.payments[|s.payments|], court, simulated); }
  }

  lemma LedgerReversal(cfg: Config, s: State, actor: Actor, f: nat, p: nat, expected: nat, now: Time, court: nat, simulated: bool)
    requires Inv(s) && LedgerOk(s, court, simulated)
    ensures LedgerOk(ReverseCredit(cfg, s, actor, f, p, expected, now).0, court, simulated)
  {
    hide Inv, LedgerOk, Grows;
    ReverseKeeps(cfg, s, actor, f, p, expected, now);
    var t := ReverseCredit(cfg, s, actor, f, p, expected, now).0;
    if t != s { LedgerReverses(s, t, t.txs[|s.txs|], p, court, simulated); }
  }

  lemma LedgerOfMoney(cfg: Config, s: State, q: Request, court: nat, simulated: bool)
    requires Inv(s) && Possible(s, q) && LedgerOk(s, court, simulated) && (q.Pay? || q.Credit? || q.Reverse?)
    ensures LedgerOk(Apply(cfg, s, q).0, court, simulated)
  {
    hide Inv, LedgerOk, ProcessPayment, RecordCredit, ReverseCredit;
    match q {
      case Pay(actor, f, expected, amount, now) => LedgerPay(cfg, s, actor, f, expected, amount, now, court, simulated);
      case Credit(actor, key, credit, now) => LedgerCredit(cfg, s, actor, key, credit, now, court, simulated);
      case Reverse(actor, f, payment, expected, now) => LedgerReversal(cfg, s, actor, f, payment, expected, now, court, simulated);
      case _ =>
    }
  }

  lemma LedgerOfOthers(cfg: Config, s: State, q: Request, court: nat, simulated: bool)
    requires Inv(s) && Possible(s, q) && LedgerOk(s, court, simulated) && !(q.Pay? || q.Credit? || q.Reverse?)
    ensures LedgerOk(Apply(cfg, s, q).0, court, simulated)
  {
    hide CreateFiling, UpdateDetails, UploadDocument, RemoveDocument, SubmitFiling, ProbeReview, RecordReview, RequestFeeReview,
         AssessFees, DecideWaiver, RecordDateOrder, PrepareCopy, PublishCopy, WithholdDocument;
    hide Inv;
    var t := Apply(cfg, s, q).0;
    assert t.payments == s.payments && NoMoney(s.txs, t.txs);
    hide Apply;
    RequestKeeps(cfg, s, q);
    LedgerFrame(s, t, court, simulated);
    NoNet(t.envelopes, t.txs[|s.txs|..], court, simulated);
  }

  lemma LedgerStep(cfg: Config, s: State, q: Request, court: nat, simulated: bool)
    requires Inv(s) && Possible(s, q) && LedgerOk(s, court, simulated)
    ensures LedgerOk(Apply(cfg, s, q).0, court, simulated)
  {
    hide Apply, Inv, LedgerOk;
    if q.Pay? || q.Credit? || q.Reverse? {
      LedgerOfMoney(cfg, s, q, court, simulated);
    } else {
      LedgerOfOthers(cfg, s, q, court, simulated);
    }
  }

  /** Credits less reversals, simulated and real apart, are the external payments that still stand. */
  lemma {:induction false} CreditsConserved(cfg: Config, r: seq<State>, x: nat, court: nat, simulated: bool)
    requires Run(cfg, r) && x < |r|
    ensures Net(r[x].envelopes, r[x].txs, court, simulated) == StandingTotal(r[x].envelopes, r[x].payments, court, simulated)
  {
    hide Inv, Apply;
    if x > 0 {
      CreditsConserved(cfg, r, x - 1, court, simulated);
      RunInv(cfg, r, x - 1);
      assert Step(cfg, r[x - 1], r[x - 1 + 1]);
      var q :| Possible(r[x - 1], q) && r[x] == Apply(cfg, r[x - 1], q).0;
      LedgerStep(cfg, r[x - 1], q, court, simulated);
    }
  }

  /** Reversing a reversed credit again adds no event and changes nothing. */
  lemma ReversedOnce(cfg: Config, r: seq<State>, i: nat, j: nat, actor: Actor, f: nat, p: nat, expected: nat, now: Time,
                     actor2: Actor, expected2: nat, now2: Time)
    requires Run(cfg, r) && i < j < |r| && ReverseCredit(cfg, r[i], actor, f, p, expected, now) == (r[i + 1], Ok)
    requires PaymentClerk(cfg, r[j], actor2, f)
    ensures ReverseCredit(cfg, r[j], actor2, f, p, expected2, now2) == (r[j], Replayed)
  {
    RunGrows(cfg, r, i + 1, j);
    hide Run, Inv;
    assert PaymentGrows(r[i + 1].payments[p], r[j].payments[p]);
  }
}
