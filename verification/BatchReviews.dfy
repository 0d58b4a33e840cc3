/** A batch review is a run of single reviews, and accepts only what its own checks read back. */
module BatchReviews {
  import opened Common
  import opened Filings
  import opened FilingInvariants
  import opened FilingSteps
  import opened FilingRequests
  import opened FilingRuns

  // ---------------------------------------------------------------- a batch

  datatype Item = Item(filing: nat, count: nat)

  /** What other systems answer while one acceptance is recorded. */
  datatype Outside = Outside(place: Option<Place>, cms: CmsResult)

  function ItemIds(items: seq<Item>): seq<nat> {
    seq(|items|, k requires 0 <= k < |items| => items[k].filing)
  }

  function EvidenceIds(evidence: seq<Evidence>): seq<nat> {
    seq(|evidence|, k requires 0 <= k < |evidence| => evidence[k].filing)
  }

  /** The same filings, each as often, in some order. */
  ghost predicate SameIds(a: seq<nat>, b: seq<nat>) {
    multiset(a) == multiset(b)
  }

  lemma NoIds(items: seq<Item>)
    ensures SameIds(EvidenceIds([]) + [], ItemIds(items[..0]))
  {
    assert EvidenceIds([]) + [] == [] && ItemIds(items[..0]) == [];
  }

  lemma NoEvidence(evidence: seq<Evidence>)
    ensures SameIds([] + [], EvidenceIds(evidence[..0]))
  {
    assert EvidenceIds(evidence[..0]) == [];
  }

  lemma ItemIdsNext(items: seq<Item>, k: nat)
    requires k < |items|
    ensures ItemIds(items[..k + 1]) == ItemIds(items[..k]) + [items[k].filing]
  {
  }

  lemma EvidenceIdsNext(evidence: seq<Evidence>, ev: Evidence)
    ensures EvidenceIds(evidence + [ev]) == EvidenceIds(evidence) + [ev.filing]
  {
  }

  lemma OneMoreId(a: seq<nat>, b: seq<nat>, c: seq<nat>, id: nat)
    requires SameIds(a + b, c)
    ensures SameIds((a + [id]) + b, c + [id]) && SameIds(a + (b + [id]), c + [id])
  {
    assert a + (b + [id]) == (a + b) + [id];
  }

  /** The evidence an item's check returns is about that item's filing. */
  lemma EvidenceFor(s: State, actor: Actor, before: seq<Item>, item: Item, storage: Storage)
    ensures var found := VerifyReview(ProbeAll(s, actor, before, storage).0, actor, item.filing, Accept, item.count, storage).1;
            found.Some? ==> found.value.filing == item.filing
  {
  }

  lemma AllIds(succeeded: seq<nat>, failed: seq<nat>, refused: seq<nat>, verified: seq<nat>, sorted: seq<nat>, items: seq<nat>)
    requires SameIds(succeeded + failed, verified) && SameIds(verified + refused, sorted) && SameIds(sorted, items)
    ensures SameIds(succeeded + (refused + failed), items)
  {
  }

  lemma {:induction false} InsertIds(item: Item, sorted: seq<Item>)
    ensures SameIds(ItemIds(Insert(item, sorted)), ItemIds(sorted) + [item.filing])
  {
    if sorted == [] {
      assert ItemIds([item]) == ItemIds([]) + [item.filing];
    } else if item.filing < sorted[0].filing {
      assert ItemIds([item] + sorted) == [item.filing] + ItemIds(sorted);
    } else {
      InsertIds(item, sorted[1..]);
      assert ItemIds([sorted[0]] + Insert(item, sorted[1..])) == [sorted[0].filing] + ItemIds(Insert(item, sorted[1..]));
      assert ItemIds(sorted) == [sorted[0].filing] + ItemIds(sorted[1..]);
    }
  }

  lemma SameThenOne(a: seq<nat>, b: seq<nat>, c: seq<nat>, id: nat)
    requires SameIds(a, b + [id]) && SameIds(b, c)
    ensures SameIds(a, c + [id])
  {
  }

  lemma {:induction false} InOrderIds(items: seq<Item>)
    ensures SameIds(ItemIds(InOrder(items)), ItemIds(items))
  {
    if items != [] {
      var n := |items| - 1;
      InOrderIds(items[..n]);
      InsertIds(items[n], InOrder(items[..n]));
      ItemIdsNext(items, n);
      assert items[..n + 1] == items;
      var inserted, sorted, first := ItemIds(InOrder(items)), ItemIds(InOrder(items[..n])), ItemIds(items[..n]);
      hide InOrder, Insert, ItemIds;
      SameThenOne(inserted, sorted, first, items[n].filing);
    } else {
      assert ItemIds(InOrder(items)) == ItemIds(items);
    }
  }

  function Insert(item: Item, sorted: seq<Item>): (r: seq<Item>)
    ensures |r| == |sorted| + 1 && multiset(r) == multiset(sorted + [item])
  {
    if sorted == [] then [item]
    else if item.filing < sorted[0].filing then [item] + sorted
    else
      assert sorted == [sorted[0]] + sorted[1..];
      [sorted[0]] + Insert(item, sorted[1..])
  }

  /** The items by ascending filing, the order in which their rows are locked. */
  function InOrder(items: seq<Item>): (r: seq<Item>)
    ensures |r| == |items| && multiset(r) == multiset(items)
  {
    if items == [] then []
    else
      var n := |items| - 1;
      assert items == items[..n] + [items[n]];
      Insert(items[n], InOrder(items[..n]))
  }

  predicate Ascending(items: seq<Item>) {
    forall i, j | 0 <= i < j < |items| :: items[i].filing <= items[j].filing
  }

  lemma {:induction false} InsertAscends(item: Item, sorted: seq<Item>)
    requires Ascending(sorted)
    ensures Ascending(Insert(item, sorted))
  {
    if sorted != [] && item.filing >= sorted[0].filing {
      InsertAscends(item, sorted[1..]);
      var rest := Insert(item, sorted[1..]);
      hide Insert;
      forall j | 0 <= j < |rest| ensures sorted[0].filing <= rest[j].filing {
        assert rest[j] in multiset(sorted[1..] + [item]);
      }
    }
  }

  lemma {:induction false} InOrderAscends(items: seq<Item>)
    ensures Ascending(InOrder(items))
  {
    if items != [] {
      InOrderAscends(items[..|items| - 1]);
      InsertAscends(items[|items| - 1], InOrder(items[..|items| - 1]));
    }
  }

  function ProbeAll(s: State, actor: Actor, items: seq<Item>, storage: Storage): (State, seq<Evidence>) {
    if items == [] then (s, [])
    else
      var n := |items| - 1;
      var (t, verified) := ProbeAll(s, actor, items[..n], storage);
      var found := VerifyReview(t, actor, items[n].filing, Accept, items[n].count, storage).1;
      (ProbeReview(t, actor, items[n].filing, Accept, items[n].count, storage).0,
       if found.Some? then verified + [found.value] else verified)
  }

  /** The tables after each verified acceptance in turn, and the filings that were accepted. */
  function RecordAll(cfg: Config, s: State, actor: Actor, verified: seq<Evidence>, outside: nat -> Outside, now: Time): (State, seq<nat>) {
    if verified == [] then (s, [])
    else
      var n := |verified| - 1;
      var (t, done) := RecordAll(cfg, s, actor, verified[..n], outside, now);
      var ev := verified[n];
      if ev.filing >= |t.envelopes| then (t, done)
      else
        var o := outside(ev.filing);
        var (u, reply) := RecordReview(cfg, t, actor, ev, "", o.place, ReviewAssessment(cfg, t, ev.filing), o.cms, now);
        (u, if reply.Ok? && ev.filing < |u.envelopes| && u.envelopes[ev.filing].status.Accepted? then done + [ev.filing] else done)
  }

  // ---------------------------------------------------------------- what it keeps

  lemma ProbeAddsEvidence(s: State, actor: Actor, f: nat, count: nat, storage: Storage)
    ensures var found := VerifyReview(s, actor, f, Accept, count, storage).1;
            found.Some? ==> found.value in ProbeReview(s, actor, f, Accept, count, storage).0.reviews
  {
    hide VerifyReview;
  }

  lemma {:induction false} ProbeAllKeeps(s: State, actor: Actor, items: seq<Item>, storage: Storage)
    requires Inv(s)
    ensures var (t, verified) := ProbeAll(s, actor, items, storage);
            Inv(t) && Grows(s, t) && forall k | 0 <= k < |verified| :: verified[k] in t.reviews
  {
    hide Inv, Grows, VerifyReview, ProbeReview;
    if items == [] {
      GrowsSelf(s);
    } else {
      var n := |items| - 1;
      var (t, verified) := ProbeAll(s, actor, items[..n], storage);
      ProbeAllKeeps(s, actor, items[..n], storage);
      var u := ProbeReview(t, actor, items[n].filing, Accept, items[n].count, storage).0;
      ProbeKeeps(t, actor, items[n].filing, Accept, items[n].count, storage);
      ProbeAddsEvidence(t, actor, items[n].filing, items[n].count, storage);
      GrowsOn(s, t, u);
    }
  }

  lemma GrowsOn(s: State, t: State, u: State)
    requires Inv(s) && Grows(s, t) && Grows(t, u)
    ensures Grows(s, u) && t.reviews <= u.reviews
  {
    InvDocs(s);
    InvUploads(s);
    hide Inv;
    GrowsFurther(s, t, u);
  }

  lemma {:induction false} RecordAllKeeps(cfg: Config, s: State, actor: Actor, verified: seq<Evidence>, outside: nat -> Outside, now: Time)
    requires Inv(s) && forall k | 0 <= k < |verified| :: verified[k] in s.reviews
    ensures var t := RecordAll(cfg, s, actor, verified, outside, now).0; Inv(t) && Grows(s, t)
  {
    hide Inv, Grows, RecordReview;
    if verified == [] {
      GrowsSelf(s);
    } else {
      var n, ev := |verified| - 1, verified[|verified| - 1];
      RecordAllKeeps(cfg, s, actor, verified[..n], outside, now);
      var t := RecordAll(cfg, s, actor, verified[..n], outside, now).0;
      if ev.filing < |t.envelopes| {
        var o := outside(ev.filing);
        EvidenceStays(s, t, ev);
        RecordKeeps(cfg, t, actor, ev, "", o.place, ReviewAssessment(cfg, t, ev.filing), o.cms, now);
        GrowsOn(s, t, RecordReview(cfg, t, actor, ev, "", o.place, ReviewAssessment(cfg, t, ev.filing), o.cms, now).0);
      }
    }
  }

  lemma EvidenceStays(s: State, t: State, ev: Evidence)
    requires Grows(s, t) && ev in s.reviews
    ensures ev in t.reviews
  {
  }

  /** Recording a review never touches a document row, and accepts only on matching fingerprints. */
  lemma RecordShape(cfg: Config, s: State, actor: Actor, ev: Evidence, o: Outside, now: Time)
    requires ev.filing < |s.envelopes| && ev.action.Accept?
    ensures var (t, reply) := RecordReview(cfg, s, actor, ev, "", o.place, ReviewAssessment(cfg, s, ev.filing), o.cms, now);
            && t.docs == s.docs && t.nextDoc == s.nextDoc && |t.envelopes| == |s.envelopes|
            && (forall f | 0 <= f < |s.envelopes| && s.envelopes[f].status.Accepted? :: t.envelopes[f].status.Accepted?)
            && (reply.Ok? ==> ev.prints == Some(LockedPrints(s, ev.filing, ev.ordered)))
  {
    hide LockedPrints, DestinationError;
  }

  lemma LockedStart(s: State, f: nat, ordered: bool)
    requires f < |s.envelopes|
    ensures HeldPrints(s, f) <= LockedPrints(s, f, ordered)
  {
  }

  /** Is this filing accepted on documents whose fingerprints one of the checks read? */
  ghost predicate AcceptedAsRead(t: State, verified: seq<Evidence>, f: nat) {
    && f < |t.envelopes| && t.envelopes[f].status.Accepted?
    && exists k | 0 <= k < |verified| :: verified[k].filing == f && verified[k].prints.Some? && HeldPrints(t, f) <= verified[k].prints.value
  }

  lemma AcceptedStays(t: State, u: State, verified: seq<Evidence>, n: nat, f: nat)
    requires n <= |verified| && AcceptedAsRead(t, verified[..n], f) && u.docs == t.docs && u.nextDoc == t.nextDoc
    requires f < |u.envelopes| && u.envelopes[f].status.Accepted?
    ensures AcceptedAsRead(u, verified, f)
  {
    var k :| 0 <= k < n && verified[..n][k].filing == f && verified[..n][k].prints.Some? && HeldPrints(t, f) <= verified[..n][k].prints.value;
    assert verified[k] == verified[..n][k];
  }

  /** Every filing a batch reports as accepted is accepted, on exactly the documents its check verified. */
  lemma {:induction false} BatchAcceptsVerified(cfg: Config, s: State, actor: Actor, verified: seq<Evidence>, outside: nat -> Outside, now: Time)
    requires forall k | 0 <= k < |verified| :: verified[k].action.Accept?
    ensures forall f | f in RecordAll(cfg, s, actor, verified, outside, now).1 ::
              AcceptedAsRead(RecordAll(cfg, s, actor, verified, outside, now).0, verified, f)
  {
    hide RecordReview, AcceptedAsRead, HeldPrints, LockedPrints;
    if verified != [] {
      var n, ev := |verified| - 1, verified[|verified| - 1];
      var init := verified[..n];
      BatchAcceptsVerified(cfg, s, actor, init, outside, now);
      assert forall f | f in RecordAll(cfg, s, actor, init, outside, now).1 ::
          AcceptedAsRead(RecordAll(cfg, s, actor, init, outside, now).0, init, f);
      var prior := RecordAll(cfg, s, actor, init, outside, now);
      var t, done := prior.0, prior.1;
      if ev.filing < |t.envelopes| {
        var o := outside(ev.filing);
        var (u, reply) := RecordReview(cfg, t, actor, ev, "", o.place, ReviewAssessment(cfg, t, ev.filing), o.cms, now);
        RecordShape(cfg, t, actor, ev, o, now);
        forall f | f in done ensures AcceptedAsRead(u, verified, f) {
          AcceptedNow(t, init, f);
          AcceptedStays(t, u, verified, n, f);
        }
        if reply.Ok? && u.envelopes[ev.filing].status.Accepted? {
          LockedStart(t, ev.filing, ev.ordered);
          NewlyAccepted(t, u, verified, ev);
        }
      } else {
        forall f | f in done ensures AcceptedAsRead(t, verified, f) {
          AcceptedNow(t, init, f);
          AcceptedStays(t, t, verified, n, f);
        }
      }
    }
  }

  lemma AcceptedNow(t: State, verified: seq<Evidence>, f: nat)
    requires AcceptedAsRead(t, verified, f)
    ensures f < |t.envelopes| && t.envelopes[f].status.Accepted?
  {
  }

  lemma NewlyAccepted(t: State, u: State, verified: seq<Evidence>, ev: Evidence)
    requires verified != [] && verified[|verified| - 1] == ev && u.docs == t.docs && u.nextDoc == t.nextDoc
    requires ev.filing < |u.envelopes| && u.envelopes[ev.filing].status.Accepted?
    requires ev.prints.Some? && HeldPrints(t, ev.filing) <= ev.prints.value
    ensures AcceptedAsRead(u, verified, ev.filing)
  {
    assert verified[|verified| - 1].filing == ev.filing;
  }

  lemma RecordOnly(cfg: Config, s: State, actor: Actor, ev: Evidence, o: Outside, now: Time)
    requires ev.filing < |s.envelopes| && ev.action.Accept?
    ensures var (t, reply) := RecordReview(cfg, s, actor, ev, "", o.place, ReviewAssessment(cfg, s, ev.filing), o.cms, now);
            && |t.envelopes| == |s.envelopes| && (forall f | 0 <= f < |s.envelopes| && f != ev.filing :: t.envelopes[f] == s.envelopes[f])
            && (t.envelopes[ev.filing].status.Accepted? ==> reply.Ok? || s.envelopes[ev.filing].status.Accepted?)
  {
    hide LockedPrints, DestinationError;
  }

  /** Whatever a batch accepts it reports, and it touches no filing it did not verify. */
  lemma {:induction false} BatchReportsAccepted(cfg: Config, s: State, actor: Actor, verified: seq<Evidence>, outside: nat -> Outside, now: Time)
    requires forall k | 0 <= k < |verified| :: verified[k].action.Accept?
    ensures var (t, done) := RecordAll(cfg, s, actor, verified, outside, now);
            && |t.envelopes| == |s.envelopes|
            && (forall f | 0 <= f < |s.envelopes| && t.envelopes[f].status.Accepted? && !s.envelopes[f].status.Accepted? :: f in done)
            && (forall f | 0 <= f < |s.envelopes| && f !in EvidenceIds(verified) :: t.envelopes[f] == s.envelopes[f])
  {
    hide RecordReview;
    if verified != [] {
      var n, ev := |verified| - 1, verified[|verified| - 1];
      var init := verified[..n];
      BatchReportsAccepted(cfg, s, actor, init, outside, now);
      EvidenceIdsNext(init, ev);
      assert init + [ev] == verified;
      var t := RecordAll(cfg, s, actor, init, outside, now).0;
      if ev.filing < |t.envelopes| { RecordOnly(cfg, t, actor, ev, outside(ev.filing), now); }
    }
  }
}
