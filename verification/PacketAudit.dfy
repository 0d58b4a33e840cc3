/** The auditor of delivery packets and of their recipients. */
module PacketAudit {
  import opened Common
  import opened ServicePackets
  import Filings

  const PAGE: nat := 25

  datatype Status = MissingMetadata | InvalidManifest | DeliveryMismatch | MetadataConsistent

  datatype Finding = PacketFinding(packet: nat, status: Status) | RecipientFinding(recipient: Recipient, status: Status)

  /** The recipient rows of one packet. */
  function Targets(recipients: seq<Recipient>, p: nat): seq<Recipient> {
    if recipients == [] then []
    else
      var last := recipients[|recipients| - 1];
      Targets(recipients[..|recipients| - 1], p) + if last.packet == p then [last] else []
  }

  predicate Present(d: Delivery, pk: Packet) {
    pk.filing < |d.filings.envelopes| && pk.case_ < |d.filings.cases| && pk.source < |d.filings.txs| && pk.actor in d.accounts
  }

  predicate SourceMatches(d: Delivery, pk: Packet)
    requires Present(d, pk)
  {
    var e, court, tx := d.filings.envelopes[pk.filing], d.filings.cases[pk.case_].court, d.filings.txs[pk.source];
    && e.case_ == Some(pk.case_) && e.court == court && tx.filing == pk.filing && tx.event.Receipt?
    && tx.event.case_ == Some(pk.case_) && tx.event.court == court && !tx.event.filingType.Initial?
  }

  predicate ValidManifest(m: seq<Filings.Entry>) {
    m != [] && DistinctIds(m) && forall k | 0 <= k < |m| :: m[k].id > 0
  }

  predicate FromSource(documents: seq<Filings.Entry>, source: seq<Filings.Entry>) {
    forall k | 0 <= k < |documents| :: !Filings.PrivateType(documents[k].file.docType) && documents[k] in source
  }

  function Ids(m: seq<Filings.Entry>): set<nat> {
    set e | e in m :: e.id
  }

  function Pairs(targets: seq<Recipient>): set<(nat, nat)> {
    set t | t in targets :: (t.contact, t.version)
  }

  predicate Separate(targets: seq<Recipient>) {
    forall i, j | 0 <= i < j < |targets| :: targets[i].contact != targets[j].contact && targets[i].recipient != targets[j].recipient
  }

  /** The verdict on a packet, and whether its recipients are looked at too. */
  function PacketVerdict(d: Delivery, pk: Packet, targets: seq<Recipient>): (Status, bool) {
    if !Present(d, pk) then (MissingMetadata, false)
    else if !SourceMatches(d, pk) then (DeliveryMismatch, false)
    else
      var source := d.filings.txs[pk.source].event.documents;
      if |pk.documents| > 100 || !ValidManifest(pk.documents) || !ValidManifest(source) then (InvalidManifest, false)
      else if !FromSource(pk.documents, source) then (DeliveryMismatch, false)
      else if !(1 <= |targets| <= 100) then (InvalidManifest, false)
      else if exists k | 0 <= k < |targets| :: targets[k].contact < 1 || targets[k].version < 1 || targets[k].recipient < 1 then (InvalidManifest, false)
      else if Selection(pk.filing, pk.source, Ids(pk.documents), Pairs(targets)) != pk.request || !Separate(targets) then (DeliveryMismatch, true)
      else (MetadataConsistent, true)
  }

  predicate HasText(s: string) {
    exists k | 0 <= k < |s| :: !Space(s[k])
  }

  predicate Joined(d: Delivery, t: Recipient) {
    && t.notice < |d.notices| && t.contact in d.contacts && d.contacts[t.contact].participant in d.participants && t.recipient in d.accounts
  }

  /** Do a recipient's retained facts agree with each other and with the contact they came from? */
  predicate SnapshotHolds(t: Recipient, current: Contact) {
    var v := t.snapshot.values;
    && t.snapshot.id == t.contact && t.snapshot.version == t.version && 1 <= t.version <= current.version
    && v.user == Some(t.recipient) && t.snapshot.participant == current.participant
    && v.participant.id == t.snapshot.participant && v.participant.party.user == Some(t.recipient)
    && v.participant.party.active && v.active && v.means.Electronic? && v.email.Some? && HasText(v.email.value)
  }

  function RecipientVerdict(d: Delivery, pk: Packet, t: Recipient): Status {
    if !Joined(d, t) then MissingMetadata
    else
      var c, n := d.contacts[t.contact], d.notices[t.notice];
      if !SnapshotHolds(t, c) then InvalidManifest
      else if c.version == t.version && t.snapshot != SnapshotOf(t.contact, c) then DeliveryMismatch
      else if c.case_ != pk.case_ || d.participants[c.participant].case_ != pk.case_ || n.recipient != t.recipient
              || n.filing != Some(pk.filing) || !n.service then DeliveryMismatch
      else MetadataConsistent
  }

  function RecipientFindings(d: Delivery, pk: Packet, targets: seq<Recipient>): seq<Finding> {
    seq(|targets|, k requires 0 <= k < |targets| => RecipientFinding(targets[k], RecipientVerdict(d, pk, targets[k])))
  }

  function PacketFindings(d: Delivery, p: nat): seq<Finding>
    requires p < |d.packets|
  {
    var targets := Targets(d.recipients, p);
    var (status, more) := PacketVerdict(d, d.packets[p], targets);
    [PacketFinding(p, status)] + if more then RecipientFindings(d, d.packets[p], targets) else []
  }

  // ---------------------------------------------------------------- scope

  /** An audit may be narrowed to a court, to a case, or both. */
  datatype Scope = Scope(court: Option<nat>, case_: Option<nat>)

  predicate FilingIn(d: Delivery, f: nat, scope: Scope) {
    && f < |d.filings.envelopes|
    && (scope.court.Some? ==> d.filings.envelopes[f].court == scope.court.value)
    && (scope.case_.Some? ==> d.filings.envelopes[f].case_ == scope.case_)
  }

  predicate CaseIn(d: Delivery, c: nat, scope: Scope) {
    && c < |d.filings.cases|
    && (scope.court.Some? ==> d.filings.cases[c].court == scope.court.value)
    && (scope.case_.Some? ==> c == scope.case_.value)
  }

  predicate NoticeIn(d: Delivery, t: Recipient, scope: Scope) {
    t.notice < |d.notices| && d.notices[t.notice].filing.Some? && FilingIn(d, d.notices[t.notice].filing.value, scope)
  }

  predicate ContactIn(d: Delivery, t: Recipient, scope: Scope) {
    t.contact in d.contacts && CaseIn(d, d.contacts[t.contact].case_, scope)
  }

  /** Does a recipient's notice, contact or participant tie its packet to the scope? */
  predicate Linked(d: Delivery, t: Recipient, scope: Scope) {
    || NoticeIn(d, t, scope) || ContactIn(d, t, scope)
    || (t.contact in d.contacts && d.contacts[t.contact].participant in d.participants
        && CaseIn(d, d.participants[d.contacts[t.contact].participant].case_, scope))
  }

  /** A packet is audited when its case, its filing, its source or any recipient belongs to the scope. */
  predicate InScope(d: Delivery, p: nat, scope: Scope)
    requires p < |d.packets|
  {
    var pk := d.packets[p];
    || scope == Scope(None, None) || CaseIn(d, pk.case_, scope) || FilingIn(d, pk.filing, scope)
    || (pk.source < |d.filings.txs| && FilingIn(d, d.filings.txs[pk.source].filing, scope))
    || exists k | 0 <= k < |d.recipients| :: d.recipients[k].packet == p && Linked(d, d.recipients[k], scope)
  }

  function FindingsBelow(d: Delivery, n: nat, scope: Scope): seq<Finding>
    requires n <= |d.packets|
  {
    if n == 0 then [] else FindingsBelow(d, n - 1, scope) + if InScope(d, n - 1, scope) then PacketFindings(d, n - 1) else []
  }

  predicate Orphan(d: Delivery, t: Recipient, scope: Scope) {
    t.packet >= |d.packets| && (scope == Scope(None, None) || NoticeIn(d, t, scope) || ContactIn(d, t, scope))
  }

  /** Recipient rows whose packet is missing. */
  function Orphans(d: Delivery, n: nat, scope: Scope): seq<Finding>
    requires n <= |d.recipients|
  {
    if n == 0 then []
    else
      Orphans(d, n - 1, scope)
      + if Orphan(d, d.recipients[n - 1], scope) then [RecipientFinding(d.recipients[n - 1], MissingMetadata)] else []
  }

  method CollectTargets(recipients: seq<Recipient>, p: nat) returns (targets: seq<Recipient>)
    ensures targets == Targets(recipients, p)
  {
    targets := [];
    var k := 0;
    while k < |recipients|
      invariant k <= |recipients| && targets == Targets(recipients[..k], p)
    {
      assert recipients[..k + 1][..k] == recipients[..k];
      if recipients[k].packet == p {
        targets := targets + [recipients[k]];
      }
      k := k + 1;
    }
    assert recipients[..k] == recipients;
  }

  method InspectServicePackets(d: Delivery, scope: Scope) returns (results: seq<Finding>)
    ensures results == FindingsBelow(d, |d.packets|, scope) + Orphans(d, |d.recipients|, scope)
    ensures forall x | x in results :: FairFinding(d, x)
    ensures forall p: nat | p < |d.packets| && InScope(d, p, scope) :: Covered(d, results, p)
    ensures forall t | t in d.recipients && Orphan(d, t, scope) :: RecipientFinding(t, MissingMetadata) in results
  {
    hide PacketFindings, InScope, Orphan, FairFinding, Covered;
    results := [];
    var done := 0;
    while done < |d.packets|
      invariant done <= |d.packets| && results == FindingsBelow(d, done, scope)
    {
      var end := if done + PAGE < |d.packets| then done + PAGE else |d.packets|;
      while done < end
        invariant done <= end <= |d.packets| && results == FindingsBelow(d, done, scope)
      {
        if InScope(d, done, scope) {
          var found := InspectPacket(d, done);
          results := results + found;
        }
        done := done + 1;
      }
    }
    var n := 0;
    while n < |d.recipients|
      invariant n <= |d.recipients| && results == FindingsBelow(d, |d.packets|, scope) + Orphans(d, n, scope)
    {
      if Orphan(d, d.recipients[n], scope) {
        results := results + [RecipientFinding(d.recipients[n], MissingMetadata)];
      }
      n := n + 1;
    }
    BelowFair(d, |d.packets|, scope);
    BelowCovered(d, |d.packets|, scope, Orphans(d, |d.recipients|, scope));
    OrphansFair(d, |d.recipients|, scope);
  }

  // ---------------------------------------------------------------- what a verdict means

  /** A row the packet points to is not there. */
  predicate PacketRowAbsent(d: Delivery, pk: Packet) {
    pk.filing >= |d.filings.envelopes| || pk.case_ >= |d.filings.cases| || pk.source >= |d.filings.txs| || pk.actor !in d.accounts
  }

  /** The packet's source is a receipt of its filing, for its case and court, by someone already in the case. */
  predicate SourceFits(d: Delivery, pk: Packet)
    requires !PacketRowAbsent(d, pk)
  {
    var e, c, tx := d.filings.envelopes[pk.filing], d.filings.cases[pk.case_], d.filings.txs[pk.source];
    && e.case_ == Some(pk.case_) && e.court == c.court
    && tx.filing == pk.filing && tx.event.Receipt? && tx.event.case_ == Some(pk.case_) && tx.event.court == c.court && !tx.event.filingType.Initial?
  }

  /** A manifest lists something, under distinct positive ids. */
  predicate Whole(m: seq<Filings.Entry>) {
    |m| >= 1 && (forall k | 0 <= k < |m| :: m[k].id > 0) && forall a, b | 0 <= a < b < |m| :: m[a].id != m[b].id
  }

  predicate OnlyReceived(documents: seq<Filings.Entry>, received: seq<Filings.Entry>) {
    forall k | 0 <= k < |documents| ::
      documents[k] in received && !documents[k].file.docType.FeeWaiver? && !documents[k].file.docType.FeeWaiverOrder?
  }

  predicate Addressed(targets: seq<Recipient>) {
    1 <= |targets| <= 100 && forall k | 0 <= k < |targets| :: targets[k].contact > 0 && targets[k].version > 0 && targets[k].recipient > 0
  }

  /** The stored request names this filing, this receipt, exactly these documents and exactly these contacts at these versions. */
  ghost predicate AsRequested(pk: Packet, targets: seq<Recipient>) {
    && pk.request.filing == pk.filing && pk.request.source == pk.source
    && (forall id :: id in pk.request.documents <==> exists e | e in pk.documents :: e.id == id)
    && (forall x :: x in pk.request.recipients <==> exists t | t in targets :: x == (t.contact, t.version))
  }

  /** The packet's lists can be read: its manifests, then its recipients. */
  ghost predicate Readable(d: Delivery, pk: Packet, targets: seq<Recipient>)
    requires !PacketRowAbsent(d, pk) && SourceFits(d, pk)
  {
    var received := d.filings.txs[pk.source].event.documents;
    |pk.documents| <= 100 && Whole(pk.documents) && Whole(received) && (OnlyReceived(pk.documents, received) ==> Addressed(targets))
  }

  /** The packet is what a retained receipt of its filing and its own recipients say it is. */
  ghost predicate PacketSound(d: Delivery, pk: Packet, targets: seq<Recipient>) {
    && !PacketRowAbsent(d, pk) && SourceFits(d, pk) && Readable(d, pk, targets)
    && OnlyReceived(pk.documents, d.filings.txs[pk.source].event.documents) && AsRequested(pk, targets)
    && forall a, b | 0 <= a < b < |targets| :: targets[a].contact != targets[b].contact && targets[a].recipient != targets[b].recipient
  }

  lemma SoundDocuments(pk: Packet)
    ensures (forall id :: id in pk.request.documents <==> exists e | e in pk.documents :: e.id == id) <==> pk.request.documents == Ids(pk.documents)
  {
  }

  lemma SoundRecipients(pk: Packet, targets: seq<Recipient>)
    ensures (forall x :: x in pk.request.recipients <==> exists t | t in targets :: x == (t.contact, t.version)) <==> pk.request.recipients == Pairs(targets)
  {
  }

  /** A packet is judged consistent exactly when it is sound, and missing exactly when a row is. */
  lemma PacketVerdictIsFair(d: Delivery, pk: Packet, targets: seq<Recipient>)
    ensures PacketVerdict(d, pk, targets).0.MetadataConsistent? <==> PacketSound(d, pk, targets)
    ensures PacketVerdict(d, pk, targets).0.MissingMetadata? <==> PacketRowAbsent(d, pk)
    ensures PacketVerdict(d, pk, targets).0.InvalidManifest? <==> !PacketRowAbsent(d, pk) && SourceFits(d, pk) && !Readable(d, pk, targets)
    ensures PacketVerdict(d, pk, targets).0.MetadataConsistent? ==> PacketVerdict(d, pk, targets).1
  {
    SoundDocuments(pk);
    SoundRecipients(pk, targets);
    hide Ids, Pairs;
  }

  predicate RecipientRowAbsent(d: Delivery, t: Recipient) {
    || t.notice >= |d.notices| || t.contact !in d.contacts || d.contacts[t.contact].participant !in d.participants || t.recipient !in d.accounts
  }

  /** The snapshot is whole: of that contact and version, an active party with an electronic address. */
  ghost predicate SnapshotWhole(t: Recipient, c: Contact) {
    var v := t.snapshot.values;
    && t.snapshot.id == t.contact && t.snapshot.version == t.version && t.snapshot.participant == c.participant && 1 <= t.version <= c.version
    && v.user == Some(t.recipient) && v.participant.id == c.participant && v.participant.party.user == Some(t.recipient)
    && v.participant.party.active && v.active && v.means.Electronic? && v.email.Some?
    && exists k | 0 <= k < |v.email.value| :: v.email.value[k] !in " \t\n\r"
  }

  /** The recipient's snapshot is of its contact at its version, and its notice went to that account about that filing. */
  ghost predicate RecipientSound(d: Delivery, pk: Packet, t: Recipient) {
    && !RecipientRowAbsent(d, t)
    && var c, n := d.contacts[t.contact], d.notices[t.notice];
       && SnapshotWhole(t, c) && (t.version == c.version ==> t.snapshot.values == c.values)
       && c.case_ == pk.case_ && d.participants[c.participant].case_ == pk.case_
       && n.service && n.recipient == t.recipient && n.filing == Some(pk.filing)
  }

  lemma SpacesAre(s: string)
    ensures HasText(s) <==> exists k | 0 <= k < |s| :: s[k] !in " \t\n\r"
  {
  }

  /** So is each recipient. */
  lemma RecipientVerdictIsFair(d: Delivery, pk: Packet, t: Recipient)
    ensures RecipientVerdict(d, pk, t).MetadataConsistent? <==> RecipientSound(d, pk, t)
    ensures RecipientVerdict(d, pk, t).MissingMetadata? <==> RecipientRowAbsent(d, t)
    ensures RecipientVerdict(d, pk, t).InvalidManifest? <==> !RecipientRowAbsent(d, t) && !SnapshotWhole(t, d.contacts[t.contact])
  {
    if t.snapshot.values.email.Some? { SpacesAre(t.snapshot.values.email.value); }
    hide HasText;
  }

  ghost predicate FairFinding(d: Delivery, x: Finding) {
    match x
    case PacketFinding(p, status) =>
      && p < |d.packets|
      && (status.MetadataConsistent? <==> PacketSound(d, d.packets[p], Targets(d.recipients, p)))
      && (status.MissingMetadata? <==> PacketRowAbsent(d, d.packets[p]))
      && (status.InvalidManifest? <==> !PacketRowAbsent(d, d.packets[p]) && SourceFits(d, d.packets[p])
                                       && !Readable(d, d.packets[p], Targets(d.recipients, p)))
    case RecipientFinding(t, status) =>
      && t in d.recipients
      && (t.packet >= |d.packets| ==> status.MissingMetadata?)
      && (t.packet < |d.packets| ==>
            && (status.MetadataConsistent? <==> RecipientSound(d, d.packets[t.packet], t))
            && (status.MissingMetadata? <==> RecipientRowAbsent(d, t))
            && (status.InvalidManifest? <==> !RecipientRowAbsent(d, t) && !SnapshotWhole(t, d.contacts[t.contact])))
  }

  /** A packet has its finding, and so has each of its recipients unless the packet itself could not be read. */
  ghost predicate Covered(d: Delivery, results: seq<Finding>, p: nat)
    requires p < |d.packets|
  {
    exists status ::
      && PacketFinding(p, status) in results
      && (status.MetadataConsistent? ==> forall t | t in d.recipients && t.packet == p :: HasFinding(results, t))
  }

  ghost predicate HasFinding(results: seq<Finding>, t: Recipient) {
    exists status :: RecipientFinding(t, status) in results
  }

  lemma {:induction false} TargetsAre(recipients: seq<Recipient>, p: nat)
    ensures forall t :: t in Targets(recipients, p) <==> t in recipients && t.packet == p
  {
    if recipients != [] {
      var n := |recipients| - 1;
      TargetsAre(recipients[..n], p);
      assert recipients == recipients[..n] + [recipients[n]];
    }
  }

  lemma RecipientsFair(d: Delivery, p: nat, targets: seq<Recipient>)
    requires p < |d.packets| && targets == Targets(d.recipients, p)
    ensures forall x | x in RecipientFindings(d, d.packets[p], targets) :: FairFinding(d, x)
  {
    TargetsAre(d.recipients, p);
    hide Targets, RecipientVerdict, RecipientSound, RecipientRowAbsent, SnapshotWhole;
    forall k | 0 <= k < |targets| ensures FairFinding(d, RecipientFinding(targets[k], RecipientVerdict(d, d.packets[p], targets[k]))) {
      assert targets[k] in targets;
      RecipientVerdictIsFair(d, d.packets[p], targets[k]);
    }
  }

  lemma FindingsFair(d: Delivery, p: nat)
    requires p < |d.packets|
    ensures forall x | x in PacketFindings(d, p) :: FairFinding(d, x)
    ensures PacketFindings(d, p) != [] && PacketFindings(d, p)[0].PacketFinding? && PacketFindings(d, p)[0].packet == p
    ensures PacketFindings(d, p)[0].status.MetadataConsistent? ==> forall t | t in d.recipients && t.packet == p :: HasFinding(PacketFindings(d, p), t)
  {
    var targets := Targets(d.recipients, p);
    PacketVerdictIsFair(d, d.packets[p], targets);
    RecipientsFair(d, p, targets);
    TargetsAre(d.recipients, p);
    hide PacketVerdict, RecipientVerdict, PacketSound, Readable, SourceFits, PacketRowAbsent, Targets, RecipientSound, RecipientRowAbsent, SnapshotWhole;
    if PacketFindings(d, p)[0].status.MetadataConsistent? {
      forall t | t in d.recipients && t.packet == p ensures HasFinding(PacketFindings(d, p), t) {
        assert t in targets;
        var k :| 0 <= k < |targets| && targets[k] == t;
        assert PacketFindings(d, p)[1 + k] == RecipientFinding(t, RecipientVerdict(d, d.packets[p], t));
      }
    }
  }

  lemma {:induction false} BelowFair(d: Delivery, n: nat, scope: Scope)
    requires n <= |d.packets|
    ensures forall x | x in FindingsBelow(d, n, scope) :: FairFinding(d, x)
  {
    hide PacketFindings, FairFinding, InScope;
    if n > 0 {
      BelowFair(d, n - 1, scope);
      FindingsFair(d, n - 1);
    }
  }

  lemma CoveredMore(d: Delivery, a: seq<Finding>, more: seq<Finding>, p: nat)
    requires p < |d.packets| && Covered(d, a, p)
    ensures Covered(d, a + more, p)
  {
    var status :| PacketFinding(p, status) in a
                  && (status.MetadataConsistent? ==> forall t | t in d.recipients && t.packet == p :: HasFinding(a, t));
    assert forall t | HasFinding(a, t) :: HasFinding(a + more, t) by {
      forall t | HasFinding(a, t) ensures HasFinding(a + more, t) {
        var st :| RecipientFinding(t, st) in a;
        assert RecipientFinding(t, st) in a + more;
      }
    }
    assert PacketFinding(p, status) in a + more;
  }

  lemma CoveredLate(d: Delivery, a: seq<Finding>, p: nat)
    requires p < |d.packets|
    ensures Covered(d, a + PacketFindings(d, p), p)
  {
    FindingsFair(d, p);
    hide PacketFindings, FairFinding;
    var found := PacketFindings(d, p);
    assert found[0] in found && found[0] in a + found;
    assert forall t | HasFinding(found, t) :: HasFinding(a + found, t) by {
      forall t | HasFinding(found, t) ensures HasFinding(a + found, t) {
        var st :| RecipientFinding(t, st) in found;
        assert RecipientFinding(t, st) in a + found;
      }
    }
    assert PacketFinding(p, found[0].status) == found[0];
  }

  lemma {:induction false} BelowCovered(d: Delivery, n: nat, scope: Scope, more: seq<Finding>)
    requires n <= |d.packets|
    ensures forall p: nat | p < n && InScope(d, p, scope) :: Covered(d, FindingsBelow(d, n, scope) + more, p)
  {
    hide PacketFindings, InScope, Covered;
    if n > 0 {
      var a := FindingsBelow(d, n - 1, scope);
      forall p: nat | p < n && InScope(d, p, scope) ensures Covered(d, FindingsBelow(d, n, scope) + more, p) {
        if p < n - 1 {
          BelowCovered(d, n - 1, scope, []);
          assert a + [] == a;
          CoveredMore(d, a, FindingsBelow(d, n, scope)[|a|..], p);
          assert a + FindingsBelow(d, n, scope)[|a|..] == FindingsBelow(d, n, scope);
        } else {
          CoveredLate(d, a, p);
        }
        CoveredMore(d, FindingsBelow(d, n, scope), more, p);
      }
    }
  }

  lemma {:induction false} OrphansFair(d: Delivery, n: nat, scope: Scope)
    requires n <= |d.recipients|
    ensures forall x | x in Orphans(d, n, scope) :: FairFinding(d, x)
    ensures forall k | 0 <= k < n && Orphan(d, d.recipients[k], scope) :: RecipientFinding(d.recipients[k], MissingMetadata) in Orphans(d, n, scope)
  {
    if n > 0 { OrphansFair(d, n - 1, scope); }
  }

  /** One packet's verdict, then, unless it cannot be read further, one for each recipient. */
  method InspectPacket(d: Delivery, p: nat) returns (results: seq<Finding>)
    requires p < |d.packets|
    ensures results == PacketFindings(d, p)
  {
    hide PacketVerdict, RecipientVerdict;
    var pk := d.packets[p];
    var targets := CollectTargets(d.recipients, p);
    var (status, more) := PacketVerdict(d, pk, targets);
    results := [PacketFinding(p, status)];
    if more {
      var k := 0;
      while k < |targets|
        invariant k <= |targets| && results == [PacketFinding(p, status)] + RecipientFindings(d, pk, targets[..k])
      {
        results := results + [RecipientFinding(targets[k], RecipientVerdict(d, pk, targets[k]))];
        k := k + 1;
      }
      assert targets[..k] == targets;
    }
  }
}
