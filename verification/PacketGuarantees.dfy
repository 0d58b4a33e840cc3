/** A packet is sent exactly when every check holds; what it carries was read back intact, and stays backed by its rows. */
module PacketGuarantees {
  import opened Common
  import opened ServicePackets
  import opened PacketAudit
  import opened PacketRuns
  import Filings
  import FI = FilingInvariants
  import FQ = FilingRequests

  // ---------------------------------------------------------------- what may be sent, and to whom

  /** The filing's row behind an entry is retained and unchanged, and its file was read from storage with that digest and size. */
  predicate ReadBack(s: Receipts, f: nat, e: Filings.Entry, storage: Filings.Storage) {
    && !e.file.docType.FeeWaiver? && !e.file.docType.FeeWaiverOrder?
    && e.id in s.docs
    && var row := s.docs[e.id];
       && row.envelope == f && row.retainedAt.Some? && !row.file.docType.FeeWaiver? && !row.file.docType.FeeWaiverOrder?
       && row.file.sha == e.file.sha && row.file.size == e.file.size && row.file.mime == e.file.mime
       && row.key in storage && storage[row.key].0 == e.file.sha && storage[row.key].1 == e.file.size
  }

  /** The receipt has an entry of that id that was read back. */
  predicate Backed(s: Receipts, f: nat, m: seq<Filings.Entry>, id: nat, storage: Filings.Storage) {
    exists e | e in m :: e.id == id && ReadBack(s, f, e, storage)
  }

  /** The contact is of the case, at the version chosen, and its participant and account still stand behind it. */
  predicate Usable(d: Delivery, case_: nat, restricted: bool, actor: nat, id: nat, version: nat) {
    && id in d.contacts
    && var c := d.contacts[id];
       && c.case_ == case_ && c.version == version && c.values.means.Electronic? && c.values.active && c.participant in d.participants
       && var p := d.participants[c.participant];
          && p.case_ == case_ && p.reviewed && p.party.active && (restricted ==> p.party.access)
          && c.values.participant.id == c.participant && c.values.participant.party == p.party
          && p.party.user.Some? && p.party.user.value in d.accounts && p.party.user.value != actor && c.values.user == p.party.user
          && var a := d.accounts[p.party.user.value];
             && a.active && a.linked && a.verified != "" && a.email == a.verified && c.values.email == Some(a.verified)
             && (p.party.counsel ==> a.attorney && a.barVerified && a.bar != "" && a.bar == p.party.bar)
  }

  /** The row is the one receipt of the filing's current submission, in a case of its court, and the filing has not been declined. */
  ghost predicate CurrentReceipt(s: Receipts, f: nat, source: nat) {
    && f < |s.envelopes| && source < |s.txs| && s.txs[source].filing == f && s.txs[source].event.Receipt?
    && var e, receipt := s.envelopes[f], s.txs[source];
       && receipt.submission == e.submissions
       && (forall j | 0 <= j < |s.txs| && s.txs[j].filing == f && s.txs[j].event.Receipt? && s.txs[j].submission == e.submissions :: j == source)
       && !e.status.Draft? && !e.status.Returned? && !e.status.Rejected?
       && !e.filingType.Initial? && e.case_.Some? && e.case_.value < |s.cases| && s.cases[e.case_.value].court == e.court
       && receipt.event.case_ == e.case_ && receipt.event.court == e.court && receipt.event.filingType == e.filingType
       && (forall i, j | 0 <= i < j < |receipt.event.documents| :: receipt.event.documents[i].id != receipt.event.documents[j].id)
  }

  lemma {:induction false} LookupFinds(m: seq<Filings.Entry>, e: Filings.Entry)
    requires DistinctIds(m) && e in m
    ensures Lookup(m, e.id) == Some(e)
  {
    if m[0] != e {
      assert e in m[1..];
      assert forall i, j | 0 <= i < j < |m[1..]| :: m[1..][i].id == m[i + 1].id && m[1..][j].id == m[j + 1].id;
      LookupFinds(m[1..], e);
      var k :| 0 <= k < |m[1..]| && m[1..][k] == e;
      assert m[0].id != m[k + 1].id;
    }
  }

  lemma BackedIffSendable(s: Receipts, f: nat, m: seq<Filings.Entry>, id: nat, storage: Filings.Storage)
    requires DistinctIds(m)
    ensures Backed(s, f, m, id, storage) <==> Sendable(s, f, m, id, storage)
  {
    hide Lookup, DistinctIds;
    if Backed(s, f, m, id, storage) {
      var e :| e in m && e.id == id && ReadBack(s, f, e, storage);
      LookupFinds(m, e);
    }
    if Sendable(s, f, m, id, storage) {
      assert ReadBack(s, f, Lookup(m, id).value, storage);
    }
  }

  lemma UsableIffReachable(d: Delivery, case_: nat, restricted: bool, actor: nat, id: nat, version: nat)
    ensures Usable(d, case_, restricted, actor, id, version) <==> Reachable(d, case_, restricted, actor, id, version)
  {
  }

  // ---------------------------------------------------------------- sent exactly when every check holds

  /** Every chosen document was read back and every chosen contact is usable, each for an account of its own. */
  ghost predicate SelectionHolds(d: Delivery, f: nat, r: PacketRequest, restricted: bool, actor: nat, storage: Filings.Storage)
    requires CurrentReceipt(d.filings, f, r.source)
  {
    && (forall id | id in r.documents :: Backed(d.filings, f, d.filings.txs[r.source].event.documents, id, storage))
    && (forall id | id in r.recipients :: Usable(d, d.filings.envelopes[f].case_.value, restricted, actor, id, r.recipients[id]))
    && (forall a, b | a in r.recipients && b in r.recipients && a != b :: AccountIdOf(d, a) != AccountIdOf(d, b))
  }

  lemma ReceiptIsCurrent(d: Delivery, actor: nat, f: nat, r: PacketRequest, sender: bool, restricted: bool, storage: Filings.Storage)
    requires MaySend(d, actor, f, r, sender, restricted, storage)
    ensures CurrentReceipt(d.filings, f, r.source) && DistinctIds(d.filings.txs[r.source].event.documents)
  {
    hide Sendable, Reachable;
    var s := d.filings;
    forall j | 0 <= j < |s.txs| && s.txs[j].filing == f && s.txs[j].event.Receipt? && s.txs[j].submission == s.envelopes[f].submissions
      ensures j == r.source
    {
      assert IsCurrentSource(s, f, j);
    }
  }

  lemma SelectionIff(d: Delivery, actor: nat, f: nat, r: PacketRequest, sender: bool, restricted: bool, storage: Filings.Storage)
    ensures MaySend(d, actor, f, r, sender, restricted, storage) <==>
              && sender && actor in d.accounts && CurrentReceipt(d.filings, f, r.source)
              && SelectionHolds(d, f, r, restricted, actor, storage)
  {
    hide Sendable, Reachable, Backed, Usable;
    forall id | f < |d.filings.envelopes| && d.filings.envelopes[f].case_.Some? && id in r.recipients
      ensures var c := d.filings.envelopes[f].case_.value;
              Usable(d, c, restricted, actor, id, r.recipients[id]) <==> Reachable(d, c, restricted, actor, id, r.recipients[id])
    {
      UsableIffReachable(d, d.filings.envelopes[f].case_.value, restricted, actor, id, r.recipients[id]);
    }
    if MaySend(d, actor, f, r, sender, restricted, storage) {
      ReceiptIsCurrent(d, actor, f, r, sender, restricted, storage);
      AllBacked(d.filings, f, d.filings.txs[r.source].event.documents, storage);
    }
    if CurrentReceipt(d.filings, f, r.source) {
      AllBacked(d.filings, f, d.filings.txs[r.source].event.documents, storage);
    }
  }

  lemma AllBacked(s: Receipts, f: nat, m: seq<Filings.Entry>, storage: Filings.Storage)
    requires DistinctIds(m)
    ensures forall id: nat :: Backed(s, f, m, id, storage) <==> Sendable(s, f, m, id, storage)
  {
    forall id: nat ensures Backed(s, f, m, id, storage) <==> Sendable(s, f, m, id, storage) { BackedIffSendable(s, f, m, id, storage); }
  }

  /** A new packet is sent exactly when the key is unused, the receipt is current, every chosen file is intact and every contact usable. */
  lemma SentIff(d: Delivery, actor: nat, f: nat, key: Filings.Key, r: PacketRequest, sender: bool, restricted: bool, storage: Filings.Storage, queued: bool)
    ensures CreatePacket(d, actor, f, key, r, sender, restricted, storage, queued).1 == Filings.Ok <==>
              && WellSized(r) && (forall p | 0 <= p < |d.packets| :: !(d.packets[p].actor == actor && d.packets[p].key == key))
              && queued && sender && actor in d.accounts && CurrentReceipt(d.filings, f, r.source)
              && SelectionHolds(d, f, r, restricted, actor, storage)
  {
    SelectionIff(d, actor, f, r, sender, restricted, storage);
    hide MaySend, SelectionHolds, CurrentReceipt, FindPacket, Ordered, WellSized;
  }

  // ---------------------------------------------------------------- what a sent packet carries

  lemma ChosenReadBack(s: Receipts, f: nat, m: seq<Filings.Entry>, ids: set<nat>, storage: Filings.Storage)
    requires FI.DocsOk(s) && DistinctIds(m) && forall id | id in ids :: Sendable(s, f, m, id, storage)
    ensures var documents := Chosen(m, Ordered(ids, s.nextDoc));
            && |documents| == |ids| && Ids(documents) == ids
            && forall e | e in documents :: e in m && ReadBack(s, f, e, storage)
  {
    var chosen := Ordered(ids, s.nextDoc);
    forall id | id in ids ensures id < s.nextDoc && Lookup(m, id).Some? { SendableId(s, f, m, id, storage); }
    AllBelow(ids, s.nextDoc);
    hide FI.DocsOk, Ordered;
    ChosenAre(m, chosen);
    var documents := Chosen(m, chosen);
    hide Chosen, Lookup;
    IdsOf(documents, chosen, ids);
    forall e | e in documents ensures e in m && ReadBack(s, f, e, storage) {
      var k :| 0 <= k < |documents| && documents[k] == e;
      assert Sendable(s, f, m, chosen[k], storage);
    }
  }

  /** A row for the contact, at the version chosen, with its account and a notice to that account. */
  ghost predicate Delivered(d: Delivery, t: Delivery, f: nat, id: nat, version: nat) {
    exists k | |d.recipients| <= k < |t.recipients| ::
      && t.recipients[k].packet == |d.packets| && t.recipients[k].contact == id && t.recipients[k].version == version
      && id in d.contacts && d.contacts[id].values.user == Some(t.recipients[k].recipient)
      && t.recipients[k].snapshot.values == d.contacts[id].values
      && t.recipients[k].notice < |t.notices| && t.notices[t.recipients[k].notice] == Notice(true, t.recipients[k].recipient, Some(f))
  }

  lemma ReachableUser(d: Delivery, case_: nat, restricted: bool, actor: nat, id: nat, version: nat)
    requires Reachable(d, case_, restricted, actor, id, version)
    ensures id in d.contacts && d.contacts[id].version == version && d.contacts[id].participant in d.participants
    ensures d.participants[d.contacts[id].participant].party.user.Some? && d.contacts[id].values.user == Some(AccountIdOf(d, id))
  {
  }

  lemma OneDelivered(d: Delivery, t: Delivery, f: nat, ids: seq<nat>, k: nat, version: nat)
    requires AllReachable(d, ids) && k < |ids| && d.contacts[ids[k]].version == version && d.contacts[ids[k]].values.user == Some(AccountIdOf(d, ids[k]))
    requires t.recipients == d.recipients + NewRecipients(d, |d.packets|, ids) && t.notices == d.notices + NewNotices(d, f, ids)
    ensures Delivered(d, t, f, ids[k], version)
  {
    assert t.recipients[|d.recipients| + k] == RecipientRow(d, |d.packets|, |d.notices| + k, ids[k]);
    assert t.notices[|d.notices| + k] == Notice(true, AccountIdOf(d, ids[k]), Some(f));
  }

  lemma AllDelivered(d: Delivery, t: Delivery, f: nat, r: PacketRequest, case_: nat, restricted: bool, actor: nat)
    requires ContactsOk(d) && WellSized(r) && ChosenContacts(d, case_, restricted, actor, r)
    requires var ids := Ordered(r.recipients.Keys, d.nextContact);
             && AllReachable(d, ids) && t.recipients == d.recipients + NewRecipients(d, |d.packets|, ids) && t.notices == d.notices + NewNotices(d, f, ids)
    ensures |t.recipients| == |d.recipients| + |r.recipients| && |t.notices| == |d.notices| + |r.recipients|
    ensures forall id | id in r.recipients :: Delivered(d, t, f, id, r.recipients[id])
  {
    var ids := Ordered(r.recipients.Keys, d.nextContact);
    NewTargets(d, f, r, case_, restricted, actor, ids);
    OrderedAre(r.recipients.Keys, d.nextContact);
    hide Ordered, Delivered, Reachable, WellSized, SelectionOf;
    forall id | id in r.recipients ensures Delivered(d, t, f, id, r.recipients[id]) {
      ReachableId(d, case_, restricted, actor, id, r.recipients[id]);
      ReachableUser(d, case_, restricted, actor, id, r.recipients[id]);
      hide ContactsOk, ChosenContacts, AllReachable;
      assert id in r.recipients.Keys && id in ids;
      var k :| 0 <= k < |ids| && ids[k] == id;
      OneDelivered(d, t, f, ids, k, r.recipients[id]);
    }
  }

  /**
   A packet commits what was verified: each entry is of the current receipt, and the file of its
   retained row was read from storage with exactly the entry's digest and size; exactly the chosen
   documents are in it, and each chosen contact has one row and one notice.
   */
  lemma PacketCommitsVerified(d: Delivery, actor: nat, f: nat, key: Filings.Key, r: PacketRequest, sender: bool, restricted: bool,
                              storage: Filings.Storage, queued: bool)
    requires DeliveryInv(d) && CreatePacket(d, actor, f, key, r, sender, restricted, storage, queued).1 == Filings.Ok
    ensures var t := CreatePacket(d, actor, f, key, r, sender, restricted, storage, queued).0;
            && CurrentReceipt(d.filings, f, r.source)
            && |t.packets| == |d.packets| + 1 && t.packets[..|d.packets|] == d.packets
            && var pk := t.packets[|d.packets|];
               && pk.filing == f && pk.source == r.source && pk.actor == actor && pk.key == key
               && |pk.documents| == |r.documents| && Ids(pk.documents) == r.documents
               && (forall e | e in pk.documents :: e in d.filings.txs[r.source].event.documents && ReadBack(d.filings, f, e, storage))
               && |t.recipients| == |d.recipients| + |r.recipients| && |t.notices| == |d.notices| + |r.recipients|
               && (forall id | id in r.recipients :: Delivered(d, t, f, id, r.recipients[id]))
  {
    hide DeliveryInv, CurrentReceipt, Ids, Delivered, ReadBack;
    var t := CreatePacket(d, actor, f, key, r, sender, restricted, storage, queued).0;
    InvParts(d);
    SentShape(d, actor, f, key, r, sender, restricted, storage, queued);
    ReceiptIsCurrent(d, actor, f, r, sender, restricted, storage);
    hide CreatePacket;
    var m, c := d.filings.txs[r.source].event.documents, d.filings.envelopes[f].case_.value;
    SelectionOk(d, actor, f, r, sender, restricted, storage);
    hide MaySend, SelectionOf, ChosenContacts, ContactsOk;
    ChosenReadBack(d.filings, f, m, r.documents, storage);
    AllDelivered(d, t, f, r, c, restricted, actor);
  }

  lemma InvParts(d: Delivery)
    requires DeliveryInv(d)
    ensures FI.DocsOk(d.filings) && ContactsOk(d)
  {
    FQ.InvDocs(d.filings);
  }

  lemma SelectionOk(d: Delivery, actor: nat, f: nat, r: PacketRequest, sender: bool, restricted: bool, storage: Filings.Storage)
    requires MaySend(d, actor, f, r, sender, restricted, storage)
    ensures ChosenContacts(d, d.filings.envelopes[f].case_.value, restricted, actor, r)
    ensures forall id | id in r.documents :: Sendable(d.filings, f, d.filings.txs[r.source].event.documents, id, storage)
  {
    hide Sendable, Reachable;
  }

  lemma SentShape(d: Delivery, actor: nat, f: nat, key: Filings.Key, r: PacketRequest, sender: bool, restricted: bool,
                  storage: Filings.Storage, queued: bool)
    requires CreatePacket(d, actor, f, key, r, sender, restricted, storage, queued).1 == Filings.Ok
    ensures WellSized(r) && MaySend(d, actor, f, r, sender, restricted, storage)
    ensures var t, ids := CreatePacket(d, actor, f, key, r, sender, restricted, storage, queued).0, Ordered(r.recipients.Keys, d.nextContact);
            && |t.packets| == |d.packets| + 1 && t.packets[..|d.packets|] == d.packets && AllReachable(d, ids)
            && t.recipients == d.recipients + NewRecipients(d, |d.packets|, ids) && t.notices == d.notices + NewNotices(d, f, ids)
            && var pk := t.packets[|d.packets|];
               && pk.filing == f && pk.source == r.source && pk.actor == actor && pk.key == key
               && pk.documents == Chosen(d.filings.txs[r.source].event.documents, Ordered(r.documents, d.filings.nextDoc))
  {
    OrderedAre(r.recipients.Keys, d.nextContact);
    hide FindPacket, Ordered, Sendable, WellSized, Routable;
    var ids := Ordered(r.recipients.Keys, d.nextContact);
    assert forall k | 0 <= k < |ids| :: ids[k] in r.recipients.Keys;
  }

  /** However filings change later, each entry of every packet is still the file of a row of its filing. */
  lemma EveryPacketBacked(cfg: Filings.Config, r: seq<Delivery>, x: nat, p: nat)
    requires Run(cfg, r) && x < |r| && p < |r[x].packets|
    ensures var d, pk := r[x], r[x].packets[p];
            forall e | e in pk.documents :: e.id in d.filings.docs && d.filings.docs[e.id].envelope == pk.filing && d.filings.docs[e.id].file == e.file
  {
    RunInv(cfg, r, x);
    hide Run;
    StateBacked(r[x], p);
  }

  lemma StateBacked(d: Delivery, p: nat)
    requires DeliveryInv(d) && p < |d.packets|
    ensures var pk := d.packets[p];
            forall e | e in pk.documents :: e.id in d.filings.docs && d.filings.docs[e.id].envelope == pk.filing && d.filings.docs[e.id].file == e.file
  {
    var pk := d.packets[p];
    assert PacketOk(d, pk);
    var tx := d.filings.txs[pk.source];
    assert FI.TxOk(d.filings, tx);
    hide DeliveryInv, TargetsOk;
    forall e | e in pk.documents ensures FI.Kept(d.filings, pk.filing, e) {
      var k :| 0 <= k < |pk.documents| && pk.documents[k] == e;
      assert pk.documents[k] in tx.event.documents;
      var n :| 0 <= n < |tx.event.documents| && tx.event.documents[n] == e;
      assert FI.Kept(d.filings, tx.filing, tx.event.documents[n]);
    }
  }

  // ---------------------------------------------------------------- saved instructions

  /**
   A saved change is one version on from what the saver saw and records the participant as now
   reviewed; while active it is usable by the very rules that sending applies.
   */
  lemma SavedIsUsable(d: Delivery, actor: nat, staff: bool, current: bool, restricted: bool, case_: nat, id: nat, change: ContactChange, sender: nat)
    requires DeliveryInv(d) && SaveInstructions(d, actor, staff, current, restricted, case_, id, change).1 == Filings.Ok
    ensures staff && current && id in d.participants && d.participants[id].case_ == case_ && d.participants[id].party.user != Some(actor)
    ensures var t, p := SaveInstructions(d, actor, staff, current, restricted, case_, id, change).0, d.participants[id];
            exists c | c in t.contacts ::
              && t.contacts[c].participant == id && t.contacts[c].case_ == case_ && t.contacts[c].version == change.expected + 1
              && (change.expected > 0 ==> c in d.contacts && d.contacts[c].participant == id && d.contacts[c].version == change.expected)
              && t.contacts[c].values.participant.party == p.party && t.contacts[c].values.user == p.party.user
              && t.contacts[c].values.means == change.means && t.contacts[c].values.email == change.email
              && t.contacts[c].values.address == change.address && t.contacts[c].values.active == change.active
              && (forall o | o in d.contacts && o != c :: o in t.contacts && t.contacts[o] == d.contacts[o])
              && (change.active && change.means.Electronic? && p.party.user != Some(sender) ==>
                    Usable(t, case_, restricted, sender, c, change.expected + 1))
  {
    var t := SaveInstructions(d, actor, staff, current, restricted, case_, id, change).0;
    var found := FindContact(d.contacts, id, d.nextContact);
    hide FindContact, FI.Inv, PacketsOk;
    var c := if found.Some? then found.value else d.nextContact;
    assert c in t.contacts && t.contacts[c].participant == id;
  }
}
