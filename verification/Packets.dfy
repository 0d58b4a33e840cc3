/**
 Document delivery: service contacts that staff keep revising, and the packets a sender makes from
 a retained receipt for a selection of them.
 */
module ServicePackets {
  import opened Common
  import Filings

  type Receipts = Filings.State

  predicate Space(c: char) {
    c == ' ' || c == '\t' || c == '\n' || c == '\r'
  }

  /** An address after trimming and lower-casing. */
  type Trimmed = s: string | s == "" || (!Space(s[0]) && !Space(s[|s| - 1])) witness ""

  datatype Account = Account(active: bool, linked: bool, email: Trimmed, verified: string,
                             attorney: bool, bar: string, barVerified: bool)

  datatype Party = Party(user: Option<nat>, active: bool, counsel: bool, bar: string, access: bool, name: string)
  datatype Participant = Participant(case_: nat, reviewed: bool, party: Party)
  datatype PartySnapshot = PartySnapshot(id: nat, party: Party)

  datatype Means = Electronic | Mail | HandDelivery

  datatype Values = Values(participant: PartySnapshot, user: Option<nat>, name: string, means: Means,
                           email: Option<string>, address: Option<string>, active: bool, authority: string)

  datatype Contact = Contact(case_: nat, participant: nat, values: Values, version: nat)
  datatype ContactSnapshot = ContactSnapshot(id: nat, participant: nat, values: Values, version: nat)

  function SnapshotOf(id: nat, c: Contact): ContactSnapshot {
    ContactSnapshot(id, c.participant, c.values, c.version)
  }

  /** The request behind a packet's fingerprint. Selections are free of repeats, so a sorted list stands for its set. */
  datatype Selection = Selection(filing: nat, source: nat, documents: set<nat>, recipients: set<(nat, nat)>)

  datatype Packet = Packet(case_: nat, filing: nat, source: nat, actor: nat, key: Filings.Key,
                           request: Selection, documents: seq<Filings.Entry>)

  datatype Recipient = Recipient(packet: nat, recipient: nat, contact: nat, version: nat, snapshot: ContactSnapshot, notice: nat)

  datatype Notice = Notice(service: bool, recipient: nat, filing: Option<nat>)

  datatype Delivery = Delivery(
    filings: Receipts, accounts: map<nat, Account>, participants: map<nat, Participant>, contacts: map<nat, Contact>, nextContact: nat,
    packets: seq<Packet>, recipients: seq<Recipient>, notices: seq<Notice>)

  const NOTHING := Delivery(Filings.EMPTY, map[], map[], map[], 1, [], [], [])

  // ---------------------------------------------------------------- routing

  datatype Issue = Inactive | Unreviewed | ParticipantChanged | NoAccount | EmailMismatch | NoAccess | CounselMismatch

  /** May an electronic or postal contact be used as it stands? */
  predicate Routable(restricted: bool, id: nat, p: Participant, accountId: nat, account: Option<Account>, v: Values) {
    && v.active && p.party.active && p.reviewed && v.participant == PartySnapshot(id, p.party)
    && (v.means.Electronic? ==>
          && account.Some? && account.value.active && account.value.linked
          && v.user == Some(accountId) && account.value.verified != ""
          && account.value.verified == account.value.email && v.email == Some(account.value.verified)
          && (restricted ==> p.party.access)
          && (p.party.counsel ==> account.value.attorney && account.value.barVerified && account.value.bar != ""
                                  && account.value.bar == p.party.bar))
  }

  method RoutingIssues(restricted: bool, id: nat, p: Participant, accountId: nat, account: Option<Account>, v: Values) returns (issues: seq<Issue>)
    ensures issues == [] <==> Routable(restricted, id, p, accountId, account, v)
  {
    issues := [];
    if !v.active {
      issues := issues + [Inactive];
    }
    if !p.party.active || !p.reviewed {
      issues := issues + [Unreviewed];
    }
    if v.participant != PartySnapshot(id, p.party) {
      issues := issues + [ParticipantChanged];
    }
    if v.means.Electronic? {
      if account.None? || !account.value.active || !account.value.linked {
        issues := issues + [NoAccount];
      } else if v.user != Some(accountId) || account.value.verified == "" || account.value.verified != account.value.email
                || v.email != Some(account.value.verified) {
        issues := issues + [EmailMismatch];
      }
      if restricted && !p.party.access {
        issues := issues + [NoAccess];
      }
      if p.party.counsel && (account.None? || !account.value.attorney || !account.value.barVerified || account.value.bar == ""
                             || account.value.bar != p.party.bar) {
        issues := issues + [CounselMismatch];
      }
    }
  }

  // ---------------------------------------------------------------- contacts

  function FindContact(contacts: map<nat, Contact>, participant: nat, n: nat): (r: Option<nat>)
    ensures r.Some? ==> r.value < n && r.value in contacts && contacts[r.value].participant == participant
  {
    if n == 0 then None
    else if n - 1 in contacts && contacts[n - 1].participant == participant then Some(n - 1)
    else FindContact(contacts, participant, n - 1)
  }

  datatype ContactChange = ContactChange(means: Means, email: Option<string>, address: Option<string>, active: bool,
                                         authority: string, expected: nat)

  function AccountOf(d: Delivery, user: Option<nat>): Option<Account> {
    if user.Some? && user.value in d.accounts then Some(d.accounts[user.value]) else None
  }

  function NewValues(id: nat, p: Participant, change: ContactChange): Values {
    Values(PartySnapshot(id, p.party), p.party.user, p.party.name, change.means, change.email, change.address, change.active, change.authority)
  }

  /** Save the service instructions of a participant. `staff` and `current` are the checks of the case row. */
  function SaveInstructions(d: Delivery, actor: nat, staff: bool, current: bool, restricted: bool, case_: nat, id: nat, change: ContactChange): (Delivery, Filings.Reply) {
    if !staff then (d, Filings.Refused(403))
    else if !current then (d, Filings.Refused(409))
    else if id !in d.participants || d.participants[id].case_ != case_ then (d, Filings.Refused(404))
    else
      var p, found := d.participants[id], FindContact(d.contacts, id, d.nextContact);
      var version := if found.Some? then d.contacts[found.value].version else 0;
      var account := AccountOf(d, p.party.user);
      var values := NewValues(id, p, change);
      if p.party.user == Some(actor) || (found.Some? && d.contacts[found.value].values.user == Some(actor)) then (d, Filings.Refused(409))
      else if found.Some? && d.contacts[found.value].case_ != case_ then (d, Filings.Refused(409))
      else if version != change.expected then (d, Filings.Refused(409))
      else if change.active && !Routable(restricted, id, p, if p.party.user.Some? then p.party.user.value else 0, account, values) then (d, Filings.Refused(422))
      else if found.Some? && d.contacts[found.value].values == values then (d, Filings.Replayed)
      else
        var c := Contact(case_, id, values, version + 1);
        if found.Some? then (d.(contacts := d.contacts[found.value := c]), Filings.Ok)
        else (d.(contacts := d.contacts[d.nextContact := c], nextContact := d.nextContact + 1), Filings.Ok)
  }

  // ---------------------------------------------------------------- packets

  /** The members of a set below `n`, in ascending order. */
  function Ordered(ids: set<nat>, n: nat): seq<nat> {
    if n == 0 then [] else Ordered(ids, n - 1) + if n - 1 in ids then [n - 1] else []
  }

  predicate DistinctIds(m: seq<Filings.Entry>) {
    forall i, j | 0 <= i < j < |m| :: m[i].id != m[j].id
  }

  function Lookup(m: seq<Filings.Entry>, id: nat): (r: Option<Filings.Entry>)
    ensures r.Some? ==> r.value in m && r.value.id == id
  {
    if m == [] then None else if m[0].id == id then Some(m[0]) else Lookup(m[1..], id)
  }

  /** The receipt of the filing's current submission, if it is the only one. */
  predicate IsCurrentSource(s: Receipts, f: nat, source: nat)
    requires f < |s.envelopes|
  {
    && source < |s.txs| && s.txs[source].filing == f && s.txs[source].event.Receipt?
    && s.txs[source].submission == s.envelopes[f].submissions
  }

  predicate Deliverable(e: Filings.Envelope) {
    e.status.Submitted? || e.status.UnderReview? || e.status.Accepted? || e.status.Served?
  }

  /** Can this document of the receipt be sent, and does its stored file still match? */
  predicate Sendable(s: Receipts, f: nat, m: seq<Filings.Entry>, id: nat, storage: Filings.Storage) {
    var saved := Lookup(m, id);
    && saved.Some? && !Filings.PrivateType(saved.value.file.docType)
    && id in s.docs && s.docs[id].envelope == f && s.docs[id].retainedAt.Some?
    && !Filings.PrivateType(s.docs[id].file.docType)
    && s.docs[id].file.sha == saved.value.file.sha && s.docs[id].file.size == saved.value.file.size && s.docs[id].file.mime == saved.value.file.mime
    && s.docs[id].key in storage && storage[s.docs[id].key] == (saved.value.file.sha, saved.value.file.size)
  }

  /** Is this chosen contact one of the case's, unchanged since it was chosen, and routable? */
  predicate Reachable(d: Delivery, case_: nat, restricted: bool, actor: nat, id: nat, version: nat) {
    && id in d.contacts && d.contacts[id].case_ == case_
    && d.contacts[id].participant in d.participants && d.participants[d.contacts[id].participant].case_ == case_
    && var p := d.participants[d.contacts[id].participant];
       && p.party.user.Some? && p.party.user.value in d.accounts
       && d.contacts[id].values.means.Electronic? && d.contacts[id].version == version
       && Routable(restricted, d.contacts[id].participant, p, p.party.user.value, Some(d.accounts[p.party.user.value]), d.contacts[id].values)
       && p.party.user.value != actor
  }

  /** The account behind a reachable contact. */
  function AccountIdOf(d: Delivery, id: nat): nat
    requires id in d.contacts && d.contacts[id].participant in d.participants && d.participants[d.contacts[id].participant].party.user.Some?
  {
    d.participants[d.contacts[id].participant].party.user.value
  }

  datatype PacketRequest = PacketRequest(source: nat, documents: set<nat>, recipients: map<nat, nat>)

  function FindPacket(packets: seq<Packet>, actor: nat, key: Filings.Key): (r: Option<nat>)
    ensures r.Some? ==> r.value < |packets| && packets[r.value].actor == actor && packets[r.value].key == key
    ensures r.None? ==> forall p | 0 <= p < |packets| :: !(packets[p].actor == actor && packets[p].key == key)
  {
    if packets == [] then None
    else
      var last := |packets| - 1;
      if packets[last].actor == actor && packets[last].key == key then Some(last) else FindPacket(packets[..last], actor, key)
  }

  function SelectionOf(f: nat, r: PacketRequest): Selection {
    Selection(f, r.source, r.documents, set id | id in r.recipients :: (id, r.recipients[id]))
  }

  predicate WellSized(r: PacketRequest) {
    && 1 <= |r.documents| <= 100 && 1 <= |r.recipients| <= 100
    && 0 !in r.documents && 0 !in r.recipients && forall id | id in r.recipients :: r.recipients[id] >= 1
  }

  /** Everything `create_packet` checks before it writes. */
  predicate MaySend(d: Delivery, actor: nat, f: nat, r: PacketRequest, sender: bool, restricted: bool, storage: Filings.Storage) {
    var s := d.filings;
    && actor in d.accounts && f < |s.envelopes| && sender
    && var e := s.envelopes[f];
       && e.case_.Some? && !e.filingType.Initial? && e.case_.value < |s.cases| && s.cases[e.case_.value].court == e.court
       && Deliverable(e) && IsCurrentSource(s, f, r.source) && (forall j | 0 <= j < |s.txs| :: IsCurrentSource(s, f, j) ==> j == r.source)
       && var receipt := s.txs[r.source].event;
          && receipt.case_ == e.case_ && receipt.court == e.court && receipt.filingType == e.filingType
          && DistinctIds(receipt.documents)
          && (forall id | id in r.documents :: Sendable(s, f, receipt.documents, id, storage))
          && (forall id | id in r.recipients :: Reachable(d, e.case_.value, restricted, actor, id, r.recipients[id]))
          && (forall a, b | a in r.recipients && b in r.recipients && a != b :: AccountIdOf(d, a) != AccountIdOf(d, b))
  }

  function Chosen(m: seq<Filings.Entry>, ids: seq<nat>): seq<Filings.Entry> {
    if ids == [] then []
    else
      var found, n := Lookup(m, ids[|ids| - 1]), |ids| - 1;
      Chosen(m, ids[..n]) + if found.Some? then [found.value] else []
  }

  /** The recipient and notice rows of a new packet, one for each contact in turn. */
  function RecipientRow(d: Delivery, packet: nat, notice: nat, id: nat): Recipient
    requires id in d.contacts && d.contacts[id].participant in d.participants && d.participants[d.contacts[id].participant].party.user.Some?
  {
    Recipient(packet, AccountIdOf(d, id), id, d.contacts[id].version, SnapshotOf(id, d.contacts[id]), notice)
  }

  predicate AllReachable(d: Delivery, ids: seq<nat>) {
    forall k | 0 <= k < |ids| ::
      ids[k] in d.contacts && d.contacts[ids[k]].participant in d.participants && d.participants[d.contacts[ids[k]].participant].party.user.Some?
  }

  function NewRecipients(d: Delivery, packet: nat, ids: seq<nat>): seq<Recipient>
    requires AllReachable(d, ids)
  {
    seq(|ids|, k requires 0 <= k < |ids| => RecipientRow(d, packet, |d.notices| + k, ids[k]))
  }

  function NewNotices(d: Delivery, f: nat, ids: seq<nat>): seq<Notice>
    requires AllReachable(d, ids)
  {
    seq(|ids|, k requires 0 <= k < |ids| => Notice(true, AccountIdOf(d, ids[k]), Some(f)))
  }

  lemma {:induction false} OrderedAre(ids: set<nat>, n: nat)
    ensures forall k | 0 <= k < |Ordered(ids, n)| :: Ordered(ids, n)[k] in ids && Ordered(ids, n)[k] < n
    ensures forall id: nat | id < n && id in ids :: id in Ordered(ids, n)
    ensures forall i, j | 0 <= i < j < |Ordered(ids, n)| :: Ordered(ids, n)[i] < Ordered(ids, n)[j]
  {
    if n > 0 {
      OrderedAre(ids, n - 1);
      assert Ordered(ids, n) == Ordered(ids, n - 1) + if n - 1 in ids then [n - 1] else [];
    }
  }

  /** `sender` and `queued` are the account checks and the outcome of queueing each alert. */
  function CreatePacket(d: Delivery, actor: nat, f: nat, key: Filings.Key, r: PacketRequest, sender: bool, restricted: bool,
                              storage: Filings.Storage, queued: bool): (t: (Delivery, Filings.Reply))
    ensures t.1 != Filings.Ok ==> t.0 == d
  {
    var found := FindPacket(d.packets, actor, key);
    if !WellSized(r) then (d, Filings.Refused(422))
    else if found.Some? then (d, if d.packets[found.value].request == SelectionOf(f, r) then Filings.Replayed else Filings.Refused(409))
    else if !MaySend(d, actor, f, r, sender, restricted, storage) || !queued then (d, Filings.Refused(409))
    else
      var s, ids := d.filings, Ordered(r.recipients.Keys, d.nextContact);
      OrderedAre(r.recipients.Keys, d.nextContact);
      var packet := Packet(s.envelopes[f].case_.value, f, r.source, actor, key, SelectionOf(f, r),
                           Chosen(s.txs[r.source].event.documents, Ordered(r.documents, s.nextDoc)));
      (d.(packets := d.packets + [packet], recipients := d.recipients + NewRecipients(d, |d.packets|, ids),
          notices := d.notices + NewNotices(d, f, ids)), Filings.Ok)
  }
}
