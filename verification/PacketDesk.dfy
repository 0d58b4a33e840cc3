/** Service instructions and packets as the endpoints write them, row by row. */
module PacketDesk {
  import opened Common
  import opened ServicePackets
  import Filings
  import PR = PacketRuns

  /** The checks on chosen contacts, in the order of the rows. */
  ghost predicate Passed(d: Delivery, case_: nat, restricted: bool, actor: nat, ids: seq<nat>, chosen: map<nat, nat>) {
    && (forall k | 0 <= k < |ids| :: ids[k] in chosen && Reachable(d, case_, restricted, actor, ids[k], chosen[ids[k]]))
    && (forall i, j | 0 <= i < j < |ids| :: AccountIdOf(d, ids[i]) != AccountIdOf(d, ids[j]))
  }

  lemma {:induction false} SameSize(a: set<nat>, b: set<nat>)
    requires a <= b && |a| == |b|
    ensures a == b
  {
    if b != {} {
      var x :| x in b;
      if x in a {
        SameSize(a - {x}, b - {x});
      } else {
        Smaller(a, b - {x});
      }
    }
  }

  lemma {:induction false} Smaller(a: set<nat>, b: set<nat>)
    requires a <= b
    ensures |a| <= |b|
  {
    if a != {} {
      var x :| x in a;
      Smaller(a - {x}, b - {x});
    }
  }

  /** All of a selection is found exactly when as many rows come back as were chosen. */
  lemma AllFound(ids: set<nat>, n: nat)
    ensures |Ordered(ids, n)| == |ids| <==> forall id | id in ids :: id < n
    ensures forall k | 0 <= k < |Ordered(ids, n)| :: Ordered(ids, n)[k] in ids
    ensures |Ordered(ids, n)| == |ids| ==> forall id | id in ids :: id in Ordered(ids, n)
  {
    PR.OrderedCount(ids, n);
    OrderedAre(ids, n);
    if forall id | id in ids :: id < n {
      assert PR.Below(ids, n) == ids;
    }
    if |Ordered(ids, n)| == |ids| {
      SameSize(PR.Below(ids, n), ids);
    }
  }

  class Desk {
    var filings: Filings.State
    var accounts: map<nat, Account>
    var participants: map<nat, Participant>
    var contacts: map<nat, Contact>
    var nextContact: nat
    var packets: seq<Packet>
    var recipients: seq<Recipient>
    var notices: seq<Notice>

    function Rows(): Delivery
      reads this
    {
      Delivery(filings, accounts, participants, contacts, nextContact, packets, recipients, notices)
    }

    /** Ids are handed out in order. */
    ghost predicate Valid()
      reads this
    {
      (forall c | c in contacts :: c < nextContact) && (forall id | id in filings.docs :: id < filings.nextDoc)
    }

    constructor ()
      ensures Rows() == NOTHING && Valid()
    {
      filings, accounts, participants, contacts, nextContact := Filings.EMPTY, map[], map[], map[], 1;
      packets, recipients, notices := [], [], [];
    }

    method SaveServiceInstructions(actor: nat, staff: bool, current: bool, restricted: bool, case_: nat, id: nat, change: ContactChange)
      returns (reply: Filings.Reply)
      requires Valid()
      modifies this
      ensures Valid() && (Rows(), reply) == SaveInstructions(old(Rows()), actor, staff, current, restricted, case_, id, change)
    {
      hide Routable;
      if !staff {
        return Filings.Refused(403);
      }
      if !current {
        return Filings.Refused(409);
      }
      if id !in participants || participants[id].case_ != case_ {
        return Filings.Refused(404);
      }
      var p := participants[id];
      var found := FindContact(contacts, id, nextContact);
      if p.party.user == Some(actor) || (found.Some? && contacts[found.value].values.user == Some(actor)) {
        return Filings.Refused(409);
      }
      if found.Some? && contacts[found.value].case_ != case_ {
        return Filings.Refused(409);
      }
      var version := if found.Some? then contacts[found.value].version else 0;
      if version != change.expected {
        return Filings.Refused(409);
      }
      var values := NewValues(id, p, change);
      if change.active {
        var issues := RoutingIssues(restricted, id, p, if p.party.user.Some? then p.party.user.value else 0, AccountOf(Rows(), p.party.user), values);
        if issues != [] {
          return Filings.Refused(422);
        }
      }
      if found.Some? && contacts[found.value].values == values {
        return Filings.Replayed;
      }
      var contact := nextContact;
      if found.Some? {
        contact := found.value;
      } else {
        nextContact := nextContact + 1;
      }
      contacts := contacts[contact := Contact(case_, id, values, change.expected + 1)];
      return Filings.Ok;
    }

    /** Walk the chosen contacts, refusing one that changed, cannot be routed or shares an account. */
    method CheckContacts(case_: nat, restricted: bool, actor: nat, chosen: map<nat, nat>, ids: seq<nat>) returns (ok: bool)
      requires (forall k | 0 <= k < |ids| :: ids[k] in chosen)
      ensures ok == Passed(Rows(), case_, restricted, actor, ids, chosen)
    {
      hide Routable;
      var seen: set<nat> := {};
      var k := 0;
      while k < |ids|
        invariant k <= |ids| && forall i | 0 <= i < k :: Reachable(Rows(), case_, restricted, actor, ids[i], chosen[ids[i]])
        invariant forall i, j | 0 <= i < j < k :: AccountIdOf(Rows(), ids[i]) != AccountIdOf(Rows(), ids[j])
        invariant forall i | 0 <= i < k :: AccountIdOf(Rows(), ids[i]) in seen
        invariant forall a | a in seen :: exists i | 0 <= i < k :: AccountIdOf(Rows(), ids[i]) == a
      {
        var id := ids[k];
        if !Reachable(Rows(), case_, restricted, actor, id, chosen[id]) {
          return false;
        }
        var account := AccountIdOf(Rows(), id);
        if account in seen {
          return false;
        }
        seen := seen + {account};
        k := k + 1;
      }
      ok := true;
    }

    /** Walk the chosen documents, refusing one the receipt does not name or storage does not match. */
    method CheckDocuments(f: nat, source: seq<Filings.Entry>, ids: seq<nat>, storage: Filings.Storage) returns (ok: bool)
      ensures ok == forall k | 0 <= k < |ids| :: Sendable(filings, f, source, ids[k], storage)
    {
      hide Sendable;
      var k := 0;
      while k < |ids|
        invariant k <= |ids| && forall i | 0 <= i < k :: Sendable(filings, f, source, ids[i], storage)
      {
        if !Sendable(filings, f, source, ids[k], storage) {
          return false;
        }
        k := k + 1;
      }
      ok := true;
    }

    /** One notice and one recipient row for each contact in turn. */
    method AddRecipients(f: nat, packet: nat, ids: seq<nat>)
      requires AllReachable(Rows(), ids)
      modifies this`recipients, this`notices
      ensures recipients == old(recipients) + NewRecipients(old(Rows()), packet, ids)
      ensures notices == old(notices) + NewNotices(old(Rows()), f, ids)
    {
      ghost var d := Rows();
      var k := 0;
      while k < |ids|
        invariant k <= |ids| && AllReachable(d, ids[..k])
        invariant recipients == old(recipients) + NewRecipients(d, packet, ids[..k]) && notices == old(notices) + NewNotices(d, f, ids[..k])
      {
        var id := ids[k];
        ghost var doneRows, doneNotices := NewRecipients(d, packet, ids[..k]), NewNotices(d, f, ids[..k]);
        notices := notices + [Notice(true, AccountIdOf(Rows(), id), Some(f))];
        recipients := recipients + [RecipientRow(Rows(), packet, |notices| - 1, id)];
        assert NewRecipients(d, packet, ids[..k + 1]) == doneRows + [RecipientRow(d, packet, |d.notices| + k, id)];
        assert NewNotices(d, f, ids[..k + 1]) == doneNotices + [Notice(true, AccountIdOf(d, id), Some(f))];
        k := k + 1;
      }
      assert ids[..k] == ids;
    }

    method CheckSelection(actor: nat, f: nat, r: PacketRequest, sender: bool, restricted: bool, storage: Filings.Storage) returns (ok: bool)
      requires Valid()
      ensures ok == MaySend(Rows(), actor, f, r, sender, restricted, storage)
    {
      hide Reachable, Sendable, Ordered, DistinctIds;
      if !MayStart(Rows(), actor, f, r, sender) {
        return false;
      }
      var ids, documents := Ordered(r.recipients.Keys, nextContact), Ordered(r.documents, filings.nextDoc);
      AllFound(r.recipients.Keys, nextContact);
      ok := |ids| == |r.recipients| && |documents| == |r.documents|;
      if ok {
        var contactsOk := CheckContacts(filings.envelopes[f].case_.value, restricted, actor, r.recipients, ids);
        var documentsOk := CheckDocuments(f, filings.txs[r.source].event.documents, documents, storage);
        ok := contactsOk && documentsOk;
      }
      Decided(Rows(), actor, f, r, sender, restricted, storage, ok);
    }

    method SendPacket(actor: nat, f: nat, key: Filings.Key, r: PacketRequest, sender: bool, restricted: bool, storage: Filings.Storage, queued: bool)
      returns (reply: Filings.Reply)
      requires Valid()
      modifies this
      ensures Valid() && (Rows(), reply) == CreatePacket(old(Rows()), actor, f, key, r, sender, restricted, storage, queued)
    {
      hide Reachable, Sendable, Ordered, Chosen, FindPacket, NewRecipients, NewNotices, DistinctIds;
      if !WellSized(r) {
        return Filings.Refused(422);
      }
      var found := FindPacket(packets, actor, key);
      if found.Some? {
        return if packets[found.value].request == SelectionOf(f, r) then Filings.Replayed else Filings.Refused(409);
      }
      var ok := CheckSelection(actor, f, r, sender, restricted, storage);
      if !ok || !queued {
        return Filings.Refused(409);
      }
      var ids := Ordered(r.recipients.Keys, nextContact);
      OrderedAre(r.recipients.Keys, nextContact);
      ReachableRows(Rows(), actor, f, r, sender, restricted, storage, ids);
      var s := filings;
      AddRecipients(f, |packets|, ids);
      packets := packets + [Packet(s.envelopes[f].case_.value, f, r.source, actor, key, SelectionOf(f, r),
                                   Chosen(s.txs[r.source].event.documents, Ordered(r.documents, s.nextDoc)))];
      return Filings.Ok;
    }
  }

  /** The checks on the sender, the filing and its current receipt. */
  predicate MayStart(d: Delivery, actor: nat, f: nat, r: PacketRequest, sender: bool) {
    var s := d.filings;
    && actor in d.accounts && f < |s.envelopes| && sender
    && var e := s.envelopes[f];
       && e.case_.Some? && !e.filingType.Initial? && e.case_.value < |s.cases| && s.cases[e.case_.value].court == e.court
       && Deliverable(e) && IsCurrentSource(s, f, r.source) && (forall j | 0 <= j < |s.txs| :: IsCurrentSource(s, f, j) ==> j == r.source)
       && var receipt := s.txs[r.source].event;
          receipt.case_ == e.case_ && receipt.court == e.court && receipt.filingType == e.filingType && DistinctIds(receipt.documents)
  }

  /** Walking the rows in order decides what the whole check says of the selection. */
  lemma Decided(d: Delivery, actor: nat, f: nat, r: PacketRequest, sender: bool, restricted: bool, storage: Filings.Storage, ok: bool)
    requires MayStart(d, actor, f, r, sender)
    requires (forall c | c in d.contacts :: c < d.nextContact) && (forall id | id in d.filings.docs :: id < d.filings.nextDoc)
    requires var ids, documents := Ordered(r.recipients.Keys, d.nextContact), Ordered(r.documents, d.filings.nextDoc);
             var e, m := d.filings.envelopes[f], d.filings.txs[r.source].event.documents;
             ok <==> && |ids| == |r.recipients| && |documents| == |r.documents|
                     && Passed(d, e.case_.value, restricted, actor, ids, r.recipients)
                     && (forall k | 0 <= k < |documents| :: Sendable(d.filings, f, m, documents[k], storage))
    ensures ok == MaySend(d, actor, f, r, sender, restricted, storage)
  {
    AllFound(r.recipients.Keys, d.nextContact);
    AllFound(r.documents, d.filings.nextDoc);
    OrderedAre(r.recipients.Keys, d.nextContact);
    hide Ordered, Routable, Lookup, DistinctIds;
  }

  lemma ReachableRows(d: Delivery, actor: nat, f: nat, r: PacketRequest, sender: bool, restricted: bool, storage: Filings.Storage, ids: seq<nat>)
    requires MaySend(d, actor, f, r, sender, restricted, storage) && forall k | 0 <= k < |ids| :: ids[k] in r.recipients
    ensures AllReachable(d, ids)
  {
    hide Routable, Sendable;
  }
}
