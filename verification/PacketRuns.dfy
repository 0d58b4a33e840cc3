/** Every packet ever created stays consistent, however contacts, participants and filings change later. */
module PacketRuns {
  import opened Common
  import opened ServicePackets
  import opened PacketAudit
  import Filings
  import FI = FilingInvariants
  import FQ = FilingRequests
  import FR = FilingRuns

  // ---------------------------------------------------------------- invariants

  /** What a packet row keeps of its creation. */
  ghost predicate PacketOk(d: Delivery, pk: Packet) {
    && Present(d, pk)
    && pk.request.filing == pk.filing && pk.request.source == pk.source && pk.request.documents == Ids(pk.documents)
    && var e, tx := d.filings.envelopes[pk.filing], d.filings.txs[pk.source];
       && e.case_ == Some(pk.case_) && !e.filingType.Initial? && tx.filing == pk.filing && tx.event.Receipt?
       && DistinctIds(tx.event.documents) && ValidManifest(pk.documents) && |pk.documents| <= 100
       && FromSource(pk.documents, tx.event.documents)
  }

  ghost predicate TargetsOk(pk: Packet, targets: seq<Recipient>) {
    && 1 <= |targets| <= 100 && Separate(targets) && Pairs(targets) == pk.request.recipients
    && forall k | 0 <= k < |targets| :: targets[k].contact >= 1 && targets[k].version >= 1 && targets[k].recipient >= 1
  }

  ghost predicate RecipientOk(d: Delivery, t: Recipient) {
    && t.packet < |d.packets| && Joined(d, t) && SnapshotHolds(t, d.contacts[t.contact])
    && (d.contacts[t.contact].version == t.version ==> t.snapshot == SnapshotOf(t.contact, d.contacts[t.contact]))
    && d.contacts[t.contact].case_ == d.packets[t.packet].case_
    && d.participants[d.contacts[t.contact].participant].case_ == d.packets[t.packet].case_
    && d.notices[t.notice] == Notice(true, t.recipient, Some(d.packets[t.packet].filing))
  }

  ghost predicate ContactsOk(d: Delivery) {
    && 0 < d.nextContact && 0 !in d.accounts
    && (forall c | c in d.contacts :: 0 < c < d.nextContact && d.contacts[c].version >= 1 && d.contacts[c].participant in d.participants
                                      && d.participants[d.contacts[c].participant].case_ == d.contacts[c].case_)
  }

  ghost predicate PacketsOk(d: Delivery) {
    && (forall p | 0 <= p < |d.packets| :: PacketOk(d, d.packets[p]) && TargetsOk(d.packets[p], Targets(d.recipients, p)))
    && (forall k | 0 <= k < |d.recipients| :: RecipientOk(d, d.recipients[k]))
    && (forall p, q | 0 <= p < q < |d.packets| :: !(d.packets[p].actor == d.packets[q].actor && d.packets[p].key == d.packets[q].key))
  }

  ghost predicate DeliveryInv(d: Delivery) {
    FI.Inv(d.filings) && ContactsOk(d) && PacketsOk(d)
  }

  // ---------------------------------------------------------------- what only grows

  predicate ContactGrows(a: Contact, b: Contact) {
    a.case_ == b.case_ && a.participant == b.participant && a.version <= b.version && (a.version == b.version ==> a == b)
  }

  ghost predicate RowsGrow(d: Delivery, t: Delivery) {
    && (forall a | a in d.accounts :: a in t.accounts)
    && (forall p | p in d.participants :: p in t.participants && t.participants[p].case_ == d.participants[p].case_)
    && (forall c | c in d.contacts :: c in t.contacts && ContactGrows(d.contacts[c], t.contacts[c]))
    && d.packets <= t.packets && d.recipients <= t.recipients && d.notices <= t.notices
  }

  ghost predicate DeliveryGrows(d: Delivery, t: Delivery) {
    FI.Grows(d.filings, t.filings) && RowsGrow(d, t)
  }

  lemma PacketStays(d: Delivery, t: Delivery, pk: Packet)
    requires PacketOk(d, pk) && DeliveryGrows(d, t)
    ensures PacketOk(t, pk)
  {
    assert FI.EnvGrows(d.filings.envelopes[pk.filing], t.filings.envelopes[pk.filing]);
  }

  lemma RecipientStays(d: Delivery, t: Delivery, r: Recipient)
    requires RecipientOk(d, r) && RowsGrow(d, t)
    ensures RecipientOk(t, r)
  {
    assert ContactGrows(d.contacts[r.contact], t.contacts[r.contact]);
  }

  lemma {:induction false} TargetsAppend(a: seq<Recipient>, b: seq<Recipient>, p: nat)
    ensures Targets(a + b, p) == Targets(a, p) + Targets(b, p)
  {
    if b == [] {
      assert a + b == a;
    } else {
      var n := |b| - 1;
      assert (a + b)[..|a| + n] == a + b[..n];
      TargetsAppend(a, b[..n], p);
    }
  }

  lemma {:induction false} TargetsAll(b: seq<Recipient>, p: nat, q: nat)
    requires forall k | 0 <= k < |b| :: b[k].packet == q
    ensures Targets(b, p) == if p == q then b else []
  {
    if b != [] {
      TargetsAll(b[..|b| - 1], p, q);
      assert b == b[..|b| - 1] + [b[|b| - 1]];
    }
  }

  lemma {:induction false} NoTargets(a: seq<Recipient>, p: nat)
    requires forall k | 0 <= k < |a| :: a[k].packet != p
    ensures Targets(a, p) == []
  {
    if a != [] { NoTargets(a[..|a| - 1], p); }
  }

  /** Rows that only grow keep every packet and recipient as it was judged. */
  lemma PacketsStay(d: Delivery, t: Delivery)
    requires DeliveryInv(d) && DeliveryGrows(d, t) && t.packets == d.packets && t.recipients == d.recipients
    ensures PacketsOk(t)
  {
    forall p | 0 <= p < |t.packets| ensures PacketOk(t, t.packets[p]) && TargetsOk(t.packets[p], Targets(t.recipients, p)) {
      PacketStays(d, t, d.packets[p]);
    }
    forall k | 0 <= k < |t.recipients| ensures RecipientOk(t, t.recipients[k]) {
      RecipientStays(d, t, d.recipients[k]);
    }
  }

  // ---------------------------------------------------------------- contacts

  lemma SaveKeeps(d: Delivery, actor: nat, staff: bool, current: bool, restricted: bool, case_: nat, id: nat, change: ContactChange)
    requires DeliveryInv(d)
    ensures var t := SaveInstructions(d, actor, staff, current, restricted, case_, id, change).0; DeliveryInv(t) && DeliveryGrows(d, t)
  {
    hide PacketsOk, Routable, FI.Inv;
    var t := SaveInstructions(d, actor, staff, current, restricted, case_, id, change).0;
    FQ.GrowsSelf(d.filings);
    hide FI.Grows;
    assert RowsGrow(d, t);
    PacketsStay(d, t);
  }

  // ---------------------------------------------------------------- new packets

  lemma {:induction false} ChosenAre(m: seq<Filings.Entry>, ids: seq<nat>)
    requires forall k | 0 <= k < |ids| :: Lookup(m, ids[k]).Some?
    ensures |Chosen(m, ids)| == |ids|
    ensures forall k | 0 <= k < |ids| :: Chosen(m, ids)[k].id == ids[k] && Chosen(m, ids)[k] in m && Lookup(m, ids[k]) == Some(Chosen(m, ids)[k])
  {
    if ids != [] { ChosenAre(m, ids[..|ids| - 1]); }
  }

  function Below(ids: set<nat>, n: nat): set<nat> {
    set id | id in ids && id < n
  }

  lemma {:induction false} OrderedCount(ids: set<nat>, n: nat)
    ensures |Ordered(ids, n)| == |Below(ids, n)|
  {
    if n > 0 {
      OrderedCount(ids, n - 1);
      if n - 1 in ids {
        assert Below(ids, n) == Below(ids, n - 1) + {n - 1};
      } else {
        assert Below(ids, n) == Below(ids, n - 1);
      }
    } else {
      assert Below(ids, 0) == {};
    }
  }

  lemma AllBelow(ids: set<nat>, n: nat)
    requires forall id | id in ids :: id < n
    ensures |Ordered(ids, n)| == |ids| && (forall id | id in ids :: id in Ordered(ids, n)) && forall k | 0 <= k < |Ordered(ids, n)| :: Ordered(ids, n)[k] in ids
    ensures forall i, j | 0 <= i < j < |Ordered(ids, n)| :: Ordered(ids, n)[i] < Ordered(ids, n)[j]
  {
    OrderedCount(ids, n);
    OrderedAre(ids, n);
    assert Below(ids, n) == ids;
  }

  lemma ChosenValid(m: seq<Filings.Entry>, ids: seq<nat>, docs: seq<Filings.Entry>)
    requires |docs| == |ids| > 0 && (forall k | 0 <= k < |ids| :: docs[k].id == ids[k] > 0 && docs[k] in m)
    requires forall k | 0 <= k < |ids| :: !Filings.PrivateType(docs[k].file.docType)
    requires forall i, j | 0 <= i < j < |ids| :: ids[i] < ids[j]
    ensures ValidManifest(docs) && FromSource(docs, m)
  {
  }

  lemma SendableId(s: Filings.State, f: nat, m: seq<Filings.Entry>, id: nat, storage: Filings.Storage)
    requires FI.DocsOk(s) && Sendable(s, f, m, id, storage)
    ensures 0 < id < s.nextDoc && Lookup(m, id).Some? && !Filings.PrivateType(Lookup(m, id).value.file.docType)
  {
    assert FI.DocOk(s, id);
  }

  /** The documents of a new packet: one retained, sendable entry for each id chosen. */
  lemma NewDocuments(d: Delivery, f: nat, r: PacketRequest, storage: Filings.Storage, m: seq<Filings.Entry>)
    requires FI.DocsOk(d.filings) && WellSized(r) && forall id | id in r.documents :: Sendable(d.filings, f, m, id, storage)
    ensures var docs := Chosen(m, Ordered(r.documents, d.filings.nextDoc));
            ValidManifest(docs) && |docs| <= 100 && FromSource(docs, m) && Ids(docs) == r.documents
  {
    hide Sendable, FI.DocsOk, Ordered, Chosen, Lookup, ValidManifest, FromSource, Ids;
    var n := d.filings.nextDoc;
    forall id | id in r.documents ensures 0 < id < n && Lookup(m, id).Some? && !Filings.PrivateType(Lookup(m, id).value.file.docType) {
      SendableId(d.filings, f, m, id, storage);
    }
    AllBelow(r.documents, n);
    var ids := Ordered(r.documents, n);
    ChosenAre(m, ids);
    var docs := Chosen(m, ids);
    ChosenValid(m, ids, docs);
    IdsOf(docs, ids, r.documents);
  }

  lemma IdsOf(docs: seq<Filings.Entry>, ids: seq<nat>, all: set<nat>)
    requires |docs| == |ids| && (forall k | 0 <= k < |ids| :: docs[k].id == ids[k] && ids[k] in all) && forall id | id in all :: id in ids
    ensures Ids(docs) == all
  {
    forall id | id in all ensures id in Ids(docs) {
      var k :| 0 <= k < |ids| && ids[k] == id;
      assert docs[k] in docs;
    }
  }

  ghost predicate ChosenContacts(d: Delivery, case_: nat, restricted: bool, actor: nat, r: PacketRequest) {
    && (forall id | id in r.recipients :: Reachable(d, case_, restricted, actor, id, r.recipients[id]))
    && (forall a, b | a in r.recipients && b in r.recipients && a != b :: AccountIdOf(d, a) != AccountIdOf(d, b))
  }

  lemma ReachableId(d: Delivery, case_: nat, restricted: bool, actor: nat, id: nat, version: nat)
    requires ContactsOk(d) && Reachable(d, case_, restricted, actor, id, version)
    ensures 0 < id < d.nextContact && id in d.contacts && d.contacts[id].version == version && d.contacts[id].participant in d.participants
    ensures d.participants[d.contacts[id].participant].party.user.Some? && AccountIdOf(d, id) > 0
  {
  }

  lemma RowsSeparate(d: Delivery, packet: nat, ids: seq<nat>, chosen: map<nat, nat>)
    requires AllReachable(d, ids) && forall i, j | 0 <= i < j < |ids| :: ids[i] < ids[j]
    requires forall k | 0 <= k < |ids| :: ids[k] in chosen && AccountIdOf(d, ids[k]) > 0 && d.contacts[ids[k]].version >= 1 && ids[k] > 0
    requires forall i, j | 0 <= i < j < |ids| :: AccountIdOf(d, ids[i]) != AccountIdOf(d, ids[j])
    ensures var rows := NewRecipients(d, packet, ids);
            Separate(rows) && forall k | 0 <= k < |rows| :: rows[k].contact >= 1 && rows[k].version >= 1 && rows[k].recipient >= 1
  {
    hide AccountIdOf;
  }

  lemma ChosenExist(d: Delivery, r: PacketRequest, case_: nat, restricted: bool, actor: nat)
    requires ContactsOk(d) && ChosenContacts(d, case_, restricted, actor, r)
    ensures forall id | id in r.recipients.Keys ::
              && 0 < id < d.nextContact && id in d.contacts && d.contacts[id].version == r.recipients[id] && d.contacts[id].participant in d.participants
              && d.participants[d.contacts[id].participant].party.user.Some? && AccountIdOf(d, id) > 0
  {
    hide Reachable, ContactsOk, AccountIdOf;
    forall id | id in r.recipients.Keys
      ensures 0 < id < d.nextContact && id in d.contacts && d.contacts[id].version == r.recipients[id] && d.contacts[id].participant in d.participants
      ensures d.participants[d.contacts[id].participant].party.user.Some? && AccountIdOf(d, id) > 0
    {
      ReachableId(d, case_, restricted, actor, id, r.recipients[id]);
    }
  }

  /** The recipient rows of a new packet cover the chosen contacts, once each. */
  lemma NewTargets(d: Delivery, f: nat, r: PacketRequest, case_: nat, restricted: bool, actor: nat, ids: seq<nat>)
    requires ContactsOk(d) && WellSized(r) && ChosenContacts(d, case_, restricted, actor, r) && ids == Ordered(r.recipients.Keys, d.nextContact)
    ensures AllReachable(d, ids) && |ids| == |r.recipients| && forall k | 0 <= k < |ids| :: ids[k] in r.recipients
    ensures var rows := NewRecipients(d, |d.packets|, ids);
            && Separate(rows) && Pairs(rows) == SelectionOf(f, r).recipients && |rows| == |ids|
            && forall k | 0 <= k < |rows| :: rows[k].contact >= 1 && rows[k].version >= 1 && rows[k].recipient >= 1
  {
    hide Ordered, Reachable, ContactsOk, Separate, Pairs, AccountIdOf;
    ChosenExist(d, r, case_, restricted, actor);
    AllBelow(r.recipients.Keys, d.nextContact);
    assert forall k | 0 <= k < |ids| :: ids[k] in r.recipients.Keys;
    RowsSeparate(d, |d.packets|, ids, r.recipients);
    PairsOf(NewRecipients(d, |d.packets|, ids), ids, r.recipients);
  }

  lemma PairsOf(rows: seq<Recipient>, ids: seq<nat>, chosen: map<nat, nat>)
    requires |rows| == |ids| && forall k | 0 <= k < |ids| :: ids[k] in chosen && rows[k].contact == ids[k] && rows[k].version == chosen[ids[k]]
    requires forall id | id in chosen :: id in ids
    ensures Pairs(rows) == set id | id in chosen :: (id, chosen[id])
  {
    forall id | id in chosen ensures (id, chosen[id]) in Pairs(rows) {
      var k :| 0 <= k < |ids| && ids[k] == id;
      assert rows[k] in rows;
    }
  }

  lemma NewRecipientOk(d: Delivery, t: Delivery, pk: Packet, restricted: bool, actor: nat, id: nat, version: nat, notice: nat)
    requires ContactsOk(d) && Reachable(d, pk.case_, restricted, actor, id, version)
    requires t.contacts == d.contacts && t.participants == d.participants && t.accounts == d.accounts && t.packets == d.packets + [pk]
    requires notice < |t.notices| && t.notices[notice] == Notice(true, AccountIdOf(d, id), Some(pk.filing))
    ensures RecipientOk(t, RecipientRow(d, |d.packets|, notice, id))
  {
    var c := d.contacts[id];
    var email := c.values.email.value;
    assert !Space(email[0]);
  }

  lemma NewPacketOk(d: Delivery, actor: nat, f: nat, key: Filings.Key, r: PacketRequest, sender: bool, restricted: bool,
                    storage: Filings.Storage, t: Delivery)
    requires DeliveryInv(d) && WellSized(r) && MaySend(d, actor, f, r, sender, restricted, storage)
    requires t.filings == d.filings && t.accounts == d.accounts && |t.packets| == |d.packets| + 1
    requires var s := d.filings;
             t.packets[|d.packets|] == Packet(s.envelopes[f].case_.value, f, r.source, actor, key, SelectionOf(f, r),
                                              Chosen(s.txs[r.source].event.documents, Ordered(r.documents, s.nextDoc)))
    ensures PacketOk(t, t.packets[|d.packets|])
  {
    FQ.InvDocs(d.filings);
    hide FI.Inv, PacketsOk, Reachable, Sendable, FI.DocsOk, Chosen, Ordered;
    NewDocuments(d, f, r, storage, d.filings.txs[r.source].event.documents);
  }

  lemma CreateGrows(d: Delivery, actor: nat, f: nat, key: Filings.Key, r: PacketRequest, sender: bool, restricted: bool,
                    storage: Filings.Storage, queued: bool)
    ensures DeliveryGrows(d, CreatePacket(d, actor, f, key, r, sender, restricted, storage, queued).0)
  {
    FQ.GrowsSelf(d.filings);
    hide FI.Grows, MaySend, NewRecipients, NewNotices;
  }

  lemma NewRecipientsOk(d: Delivery, t: Delivery, pk: Packet, r: PacketRequest, restricted: bool, actor: nat, ids: seq<nat>)
    requires ContactsOk(d) && AllReachable(d, ids) && t.packets == d.packets + [pk]
    requires forall k | 0 <= k < |ids| :: ids[k] in r.recipients && Reachable(d, pk.case_, restricted, actor, ids[k], r.recipients[ids[k]])
    requires t.contacts == d.contacts && t.participants == d.participants && t.accounts == d.accounts
    requires t.recipients == d.recipients + NewRecipients(d, |d.packets|, ids) && t.notices == d.notices + NewNotices(d, pk.filing, ids)
    ensures forall k | |d.recipients| <= k < |t.recipients| :: RecipientOk(t, t.recipients[k])
  {
    hide RecipientOk, Reachable, ContactsOk;
    forall k | |d.recipients| <= k < |t.recipients| ensures RecipientOk(t, t.recipients[k]) {
      var i := k - |d.recipients|;
      NewRecipientOk(d, t, pk, restricted, actor, ids[i], r.recipients[ids[i]], |d.notices| + i);
    }
  }

  lemma NewRowsOk(d: Delivery, actor: nat, f: nat, key: Filings.Key, r: PacketRequest, sender: bool, restricted: bool,
                  storage: Filings.Storage, queued: bool)
    requires DeliveryInv(d) && CreatePacket(d, actor, f, key, r, sender, restricted, storage, queued).1.Ok?
    ensures var t, n := CreatePacket(d, actor, f, key, r, sender, restricted, storage, queued).0, |d.packets|;
            && |t.packets| == n + 1 && PacketOk(t, t.packets[n]) && TargetsOk(t.packets[n], Targets(t.recipients, n))
            && (forall p: nat | p < n :: Targets(t.recipients, p) == Targets(d.recipients, p))
            && forall k | |d.recipients| <= k < |t.recipients| :: RecipientOk(t, t.recipients[k])
  {
    hide FI.Inv, PacketOk, TargetsOk, RecipientOk, Reachable, Sendable, Chosen, Ordered, PacketsOk, ContactsOk, Targets, Separate, Pairs, DistinctIds;
    var t, n := CreatePacket(d, actor, f, key, r, sender, restricted, storage, queued).0, |d.packets|;
    var case_, ids := d.filings.envelopes[f].case_.value, Ordered(r.recipients.Keys, d.nextContact);
    NewPacketOk(d, actor, f, key, r, sender, restricted, storage, t);
    NewTargets(d, f, r, case_, restricted, actor, ids);
    var rows := NewRecipients(d, n, ids);
    assert forall k | 0 <= k < |rows| :: rows[k].packet == n;
    RowsOfPacket(d, t, rows);
    RowsTargeted(t.packets[n], rows, |r.recipients|);
    NewRecipientsOk(d, t, t.packets[n], r, restricted, actor, ids);
  }

  lemma RowsTargeted(pk: Packet, rows: seq<Recipient>, n: nat)
    requires 1 <= n <= 100 && |rows| == n && Separate(rows) && Pairs(rows) == pk.request.recipients
    requires forall k | 0 <= k < |rows| :: rows[k].contact >= 1 && rows[k].version >= 1 && rows[k].recipient >= 1
    ensures TargetsOk(pk, rows)
  {
  }

  lemma RowsOfPacket(d: Delivery, t: Delivery, rows: seq<Recipient>)
    requires PacketsOk(d) && t.recipients == d.recipients + rows && forall k | 0 <= k < |rows| :: rows[k].packet == |d.packets|
    ensures Targets(t.recipients, |d.packets|) == rows
    ensures forall p: nat | p < |d.packets| :: Targets(t.recipients, p) == Targets(d.recipients, p)
  {
    var n := |d.packets|;
    forall p: nat | p <= n ensures Targets(t.recipients, p) == Targets(d.recipients, p) + if p == n then rows else [] {
      TargetsAppend(d.recipients, rows, p);
      TargetsAll(rows, p, n);
    }
    assert forall k | 0 <= k < |d.recipients| :: RecipientOk(d, d.recipients[k]);
    NoTargets(d.recipients, n);
  }

  lemma PacketsExtend(d: Delivery, t: Delivery)
    requires DeliveryInv(d) && DeliveryGrows(d, t) && |t.packets| == |d.packets| + 1
    requires PacketOk(t, t.packets[|d.packets|]) && TargetsOk(t.packets[|d.packets|], Targets(t.recipients, |d.packets|))
    requires forall p: nat | p < |d.packets| :: Targets(t.recipients, p) == Targets(d.recipients, p)
    requires forall k | |d.recipients| <= k < |t.recipients| :: RecipientOk(t, t.recipients[k])
    requires forall p, q | 0 <= p < q < |t.packets| :: !(t.packets[p].actor == t.packets[q].actor && t.packets[p].key == t.packets[q].key)
    ensures PacketsOk(t)
  {
    hide PacketOk, TargetsOk, RecipientOk, FI.Inv, FI.Grows, Targets;
    forall p | 0 <= p < |d.packets| ensures PacketOk(t, t.packets[p]) && TargetsOk(t.packets[p], Targets(t.recipients, p)) {
      PacketStays(d, t, d.packets[p]);
    }
    forall k | 0 <= k < |d.recipients| ensures RecipientOk(t, t.recipients[k]) {
      RecipientStays(d, t, d.recipients[k]);
    }
  }

  lemma CreateKeeps(d: Delivery, actor: nat, f: nat, key: Filings.Key, r: PacketRequest, sender: bool, restricted: bool,
                    storage: Filings.Storage, queued: bool)
    requires DeliveryInv(d)
    ensures var t := CreatePacket(d, actor, f, key, r, sender, restricted, storage, queued).0; DeliveryInv(t) && DeliveryGrows(d, t)
  {
    hide CreatePacket, PacketOk, TargetsOk, RecipientOk, FI.Inv, DeliveryGrows, Targets, PacketsOk;
    CreateGrows(d, actor, f, key, r, sender, restricted, storage, queued);
    if CreatePacket(d, actor, f, key, r, sender, restricted, storage, queued).1.Ok? {
      NewRowsOk(d, actor, f, key, r, sender, restricted, storage, queued);
      NewKeyOk(d, actor, f, key, r, sender, restricted, storage, queued);
      PacketsExtend(d, CreatePacket(d, actor, f, key, r, sender, restricted, storage, queued).0);
    }
  }

  lemma NewKeyOk(d: Delivery, actor: nat, f: nat, key: Filings.Key, r: PacketRequest, sender: bool, restricted: bool,
                 storage: Filings.Storage, queued: bool)
    requires DeliveryInv(d) && CreatePacket(d, actor, f, key, r, sender, restricted, storage, queued).1.Ok?
    ensures var t := CreatePacket(d, actor, f, key, r, sender, restricted, storage, queued).0;
            && t.filings == d.filings && ContactsOk(t)
            && (forall p, q | 0 <= p < q < |t.packets| :: !(t.packets[p].actor == t.packets[q].actor && t.packets[p].key == t.packets[q].key))
  {
    hide FI.Inv, PacketOk, TargetsOk, RecipientOk, MaySend, NewRecipients, NewNotices, Chosen, Ordered;
  }

  // ---------------------------------------------------------------- runs

  datatype Change =
    | OnFiling(q: Filings.Request)
    | OnAccount(id: nat, account: Account)
    | OnParticipant(id: nat, participant: Participant)
    | OnContact(actor: nat, staff: bool, current: bool, restricted: bool, case_: nat, id: nat, change: ContactChange)
    | OnPacket(actor: nat, f: nat, key: Filings.Key, r: PacketRequest, sender: bool, restricted: bool, storage: Filings.Storage, queued: bool)
    | OnNotice(notice: Notice)

  /** Accounts have positive ids, and a participant never moves to another case. */
  predicate Allowed(d: Delivery, c: Change) {
    match c
    case OnFiling(q) => Filings.Possible(d.filings, q)
    case OnAccount(id, _) => id > 0
    case OnParticipant(id, participant) => id in d.participants ==> d.participants[id].case_ == participant.case_
    case _ => true
  }

  function After(cfg: Filings.Config, d: Delivery, c: Change): Delivery
    requires Allowed(d, c)
  {
    match c
    case OnFiling(q) => d.(filings := Filings.Apply(cfg, d.filings, q).0)
    case OnAccount(id, account) => d.(accounts := d.accounts[id := account])
    case OnParticipant(id, participant) => d.(participants := d.participants[id := participant])
    case OnContact(actor, staff, current, restricted, case_, id, change) =>
      SaveInstructions(d, actor, staff, current, restricted, case_, id, change).0
    case OnPacket(actor, f, key, r, sender, restricted, storage, queued) => CreatePacket(d, actor, f, key, r, sender, restricted, storage, queued).0
    case OnNotice(notice) => d.(notices := d.notices + [notice])
  }

  /** A change to accounts, participants, filings or other notices keeps every packet as judged. */
  lemma OtherKeeps(d: Delivery, t: Delivery)
    requires DeliveryInv(d) && FI.Inv(t.filings) && DeliveryGrows(d, t) && t.packets == d.packets && t.recipients == d.recipients
    requires t.contacts == d.contacts && t.nextContact == d.nextContact && 0 !in t.accounts
    ensures DeliveryInv(t)
  {
    hide FI.Inv;
    PacketsStay(d, t);
    hide PacketsOk;
  }

  lemma ChangeKeeps(cfg: Filings.Config, d: Delivery, c: Change)
    requires DeliveryInv(d) && Allowed(d, c)
    ensures DeliveryInv(After(cfg, d, c)) && DeliveryGrows(d, After(cfg, d, c))
  {
    hide FI.Inv, FI.Grows, PacketsOk, CreatePacket, SaveInstructions, Filings.Apply;
    match c
    case OnFiling(q) =>
      FR.RequestKeeps(cfg, d.filings, q);
      OtherKeeps(d, After(cfg, d, c));
    case OnContact(actor, staff, current, restricted, case_, id, change) =>
      SaveKeeps(d, actor, staff, current, restricted, case_, id, change);
    case OnPacket(actor, f, key, r, sender, restricted, storage, queued) =>
      CreateKeeps(d, actor, f, key, r, sender, restricted, storage, queued);
    case _ =>
      FQ.GrowsSelf(d.filings);
      OtherKeeps(d, After(cfg, d, c));
  }

  ghost predicate Step(cfg: Filings.Config, d: Delivery, t: Delivery) {
    exists c :: Allowed(d, c) && t == After(cfg, d, c)
  }

  ghost predicate Run(cfg: Filings.Config, r: seq<Delivery>) {
    r != [] && r[0] == NOTHING && forall i | 0 <= i < |r| - 1 :: Step(cfg, r[i], r[i + 1])
  }

  lemma {:induction false} RunInv(cfg: Filings.Config, r: seq<Delivery>, x: nat)
    requires Run(cfg, r) && x < |r|
    ensures DeliveryInv(r[x])
  {
    hide DeliveryInv, After;
    if x == 0 {
      StartInv();
    } else {
      RunInv(cfg, r, x - 1);
      assert Step(cfg, r[x - 1], r[x - 1 + 1]);
      var c :| Allowed(r[x - 1], c) && r[x] == After(cfg, r[x - 1], c);
      ChangeKeeps(cfg, r[x - 1], c);
    }
  }

  lemma StartInv()
    ensures DeliveryInv(NOTHING)
  {
    FI.EmptyInv();
    hide FI.Inv;
  }

  lemma {:induction false} TargetsAreRows(recipients: seq<Recipient>, p: nat)
    ensures forall k | 0 <= k < |Targets(recipients, p)| :: Targets(recipients, p)[k] in recipients && Targets(recipients, p)[k].packet == p
  {
    if recipients != [] { TargetsAreRows(recipients[..|recipients| - 1], p); }
  }

  /** The retained receipt behind a packet still describes the packet's destination. */
  lemma SourceStillMatches(d: Delivery, pk: Packet)
    requires FI.Inv(d.filings) && PacketOk(d, pk)
    ensures SourceMatches(d, pk) && ValidManifest(d.filings.txs[pk.source].event.documents)
  {
    var tx := d.filings.txs[pk.source];
    assert FI.TxOk(d.filings, tx);
    FQ.InvEnv(d.filings, pk.filing);
    hide FI.Inv;
    assert forall k | 0 <= k < |tx.event.documents| :: FI.Kept(d.filings, tx.filing, tx.event.documents[k]);
  }

  lemma PacketConsistent(d: Delivery, p: nat)
    requires DeliveryInv(d) && p < |d.packets|
    ensures PacketVerdict(d, d.packets[p], Targets(d.recipients, p)) == (MetadataConsistent, true)
  {
    SourceStillMatches(d, d.packets[p]);
    hide FI.Inv, RecipientOk, Targets;
  }

  lemma RecipientConsistent(d: Delivery, t: Recipient)
    requires RecipientOk(d, t)
    ensures RecipientVerdict(d, d.packets[t.packet], t).MetadataConsistent?
  {
  }

  /** One consistent verdict for the packet, then one for each recipient. */
  function AllConsistent(p: nat, targets: seq<Recipient>): seq<Finding> {
    [PacketFinding(p, MetadataConsistent)]
    + seq(|targets|, k requires 0 <= k < |targets| => RecipientFinding(targets[k], MetadataConsistent))
  }

  lemma PacketTargets(d: Delivery, p: nat)
    requires PacketsOk(d) && p < |d.packets|
    ensures Targets(d.recipients, p) != []
  {
    assert TargetsOk(d.packets[p], Targets(d.recipients, p));
  }

  lemma FindingsOfPacket(d: Delivery, p: nat)
    requires DeliveryInv(d) && p < |d.packets|
    ensures Targets(d.recipients, p) != [] && PacketFindings(d, p) == AllConsistent(p, Targets(d.recipients, p))
  {
    hide FI.Inv, PacketsOk, PacketVerdict, RecipientVerdict, Targets, ContactsOk;
    PacketConsistent(d, p);
    PacketTargets(d, p);
    var targets := Targets(d.recipients, p);
    forall k | 0 <= k < |targets| ensures RecipientVerdict(d, d.packets[p], targets[k]).MetadataConsistent? {
      TargetRow(d, p, k);
    }
  }

  /**
   In every reachable state the auditor judges every packet and each of its recipients consistent,
   however often contacts, participants and accounts were revised since.
   */
  lemma EveryPacketConsistent(cfg: Filings.Config, r: seq<Delivery>, x: nat, p: nat)
    requires Run(cfg, r) && x < |r| && p < |r[x].packets|
    ensures Targets(r[x].recipients, p) != [] && PacketFindings(r[x], p) == AllConsistent(p, Targets(r[x].recipients, p))
  {
    hide Run, DeliveryInv, PacketFindings, Targets, AllConsistent;
    RunInv(cfg, r, x);
    FindingsOfPacket(r[x], p);
  }

  lemma TargetRow(d: Delivery, p: nat, k: nat)
    requires PacketsOk(d) && p < |d.packets| && k < |Targets(d.recipients, p)|
    ensures RecipientVerdict(d, d.packets[p], Targets(d.recipients, p)[k]).MetadataConsistent?
  {
    TargetsAreRows(d.recipients, p);
    var t := Targets(d.recipients, p)[k];
    var i :| 0 <= i < |d.recipients| && d.recipients[i] == t;
    assert RecipientOk(d, d.recipients[i]);
    RecipientConsistent(d, t);
  }

  lemma {:induction false} NoOrphans(d: Delivery, n: nat, scope: Scope)
    requires PacketsOk(d) && n <= |d.recipients|
    ensures Orphans(d, n, scope) == []
  {
    if n > 0 {
      NoOrphans(d, n - 1, scope);
      assert RecipientOk(d, d.recipients[n - 1]);
    }
  }

  lemma {:induction false} FindingsConsistent(cfg: Filings.Config, r: seq<Delivery>, x: nat, n: nat, scope: Scope)
    requires Run(cfg, r) && x < |r| && n <= |r[x].packets|
    ensures forall v | v in FindingsBelow(r[x], n, scope) :: v.status.MetadataConsistent?
  {
    hide Run, PacketFindings, InScope;
    if n > 0 {
      FindingsConsistent(cfg, r, x, n - 1, scope);
      EveryPacketConsistent(cfg, r, x, n - 1);
    }
  }

  /** What the auditor yields in a reachable state, for any court or case: consistent findings and no orphans. */
  lemma AuditConsistent(cfg: Filings.Config, r: seq<Delivery>, x: nat, scope: Scope)
    requires Run(cfg, r) && x < |r|
    ensures forall v | v in FindingsBelow(r[x], |r[x].packets|, scope) + Orphans(r[x], |r[x].recipients|, scope) :: v.status.MetadataConsistent?
  {
    hide Run, FI.Inv, FindingsBelow, Orphans;
    FindingsConsistent(cfg, r, x, |r[x].packets|, scope);
    RunInv(cfg, r, x);
    NoOrphans(r[x], |r[x].recipients|, scope);
  }

  lemma PacketFound(d: Delivery, p: nat)
    requires PacketsOk(d) && p < |d.packets|
    ensures FindPacket(d.packets, d.packets[p].actor, d.packets[p].key) == Some(p)
  {
    hide PacketOk, TargetsOk, RecipientOk, FindPacket;
  }

  lemma PacketAgain(d: Delivery, actor: nat, f: nat, key: Filings.Key, q: PacketRequest, sender: bool, restricted: bool, storage: Filings.Storage, queued: bool, p: nat)
    requires WellSized(q) && FindPacket(d.packets, actor, key) == Some(p)
    ensures CreatePacket(d, actor, f, key, q, sender, restricted, storage, queued)
         == (d, if d.packets[p].request == SelectionOf(f, q) then Filings.Replayed else Filings.Refused(409))
  {
    hide MaySend, FindPacket;
  }

  /** Under one key an actor makes one packet: the same selection replays, another is refused. */
  lemma PacketOnce(cfg: Filings.Config, r: seq<Delivery>, x: nat, p: nat, f: nat, q: PacketRequest, sender: bool, restricted: bool,
                   storage: Filings.Storage, queued: bool)
    requires Run(cfg, r) && x < |r| && p < |r[x].packets| && WellSized(q)
    ensures var pk := r[x].packets[p];
            CreatePacket(r[x], pk.actor, f, pk.key, q, sender, restricted, storage, queued)
            == (r[x], if pk.request == SelectionOf(f, q) then Filings.Replayed else Filings.Refused(409))
  {
    hide Run, FI.Inv, PacketsOk, CreatePacket;
    RunInv(cfg, r, x);
    PacketFound(r[x], p);
    PacketAgain(r[x], r[x].packets[p].actor, f, r[x].packets[p].key, q, sender, restricted, storage, queued, p);
  }
}
