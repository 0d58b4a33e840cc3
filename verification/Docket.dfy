/** What a case's docket lists for a viewer, and what the download rules let that viewer fetch. */
module Docket {
  import opened Common
  import opened Filings
  import opened FilingInvariants
  import opened FilingRequests
  import opened FilingRuns

  /** A signed-in viewer: court staff assignments and the cases a participant grant opens. */
  datatype Viewer = Viewer(id: nat, active: bool, systemAdmin: bool, staffOf: set<nat>, granted: set<nat>)

  datatype Item = Original(doc: nat) | PublicCopy(doc: nat, copyId: nat)

  predicate Staff(v: Option<Viewer>, court: nat) {
    v.Some? && court in v.value.staffOf
  }

  predicate Filer(v: Option<Viewer>, e: Envelope) {
    v.Some? && e.filer == v.value.id
  }

  predicate OnPublicDocket(status: Status) {
    status.Accepted?
  }

  // ---------------------------------------------------------------- reading rules

  /** The visibility filter over cases; `isRestricted` says which cases are closed to the public. */
  predicate MayReadCase(s: State, isRestricted: nat -> bool, v: Option<Viewer>, c: nat) {
    && c < |s.cases|
    && if v.None? then !isRestricted(c)
       else v.value.active && (v.value.systemAdmin || !isRestricted(c) || c in v.value.granted || Staff(v, s.cases[c].court))
  }

  predicate MayReadEnvelope(s: State, isRestricted: nat -> bool, v: Option<Viewer>, f: nat)
    requires f < |s.envelopes|
  {
    var e := s.envelopes[f];
    || Filer(v, e) || Staff(v, e.court)
    || (OnPublicDocket(e.status) && e.case_.Some? && e.case_.value < |s.cases|
        && (isRestricted(e.case_.value) ==> v.Some? && MayReadCase(s, isRestricted, v, e.case_.value)))
  }

  predicate MayReadDocument(s: State, isRestricted: nat -> bool, v: Option<Viewer>, id: nat) {
    && id in s.docs && s.docs[id].envelope < |s.envelopes|
    && var d, e := s.docs[id], s.envelopes[s.docs[id].envelope];
       if d.confidential || PrivateType(d.file.docType) || d.removedAt.Some? then Filer(v, e) || Staff(v, e.court)
       else MayReadEnvelope(s, isRestricted, v, d.envelope)
  }

  predicate MayReadCopy(s: State, isRestricted: nat -> bool, v: Option<Viewer>, copyId: nat) {
    && 0 < copyId <= |s.copies|
    && var id := s.copies[copyId - 1].document;
       && id in s.docs && s.docs[id].envelope < |s.envelopes|
       && var d, e := s.docs[id], s.envelopes[s.docs[id].envelope];
          if Staff(v, e.court) then true
          else if Filer(v, e) then
            exists i | 0 <= i < |s.txs| :: s.txs[i].filing == d.envelope && s.txs[i].event.CopyPublished? && s.txs[i].event.copy.id == copyId
          else d.publicCopy == Some(copyId) && !PublicationBlocked(d, e) && e.case_.Some? && MayReadCase(s, isRestricted, v, e.case_.value)
  }

  predicate MayDownload(s: State, isRestricted: nat -> bool, v: Option<Viewer>, item: Item) {
    match item
    case Original(id) => MayReadDocument(s, isRestricted, v, id)
    case PublicCopy(id, copyId) => 0 < copyId <= |s.copies| && s.copies[copyId - 1].document == id && MayReadCopy(s, isRestricted, v, copyId)
  }

  // ---------------------------------------------------------------- the docket

  /** May the viewer see this filing's entry at all? */
  predicate EntryVisible(e: Envelope, v: Option<Viewer>) {
    OnPublicDocket(e.status) || Filer(v, e) || Staff(v, e.court)
  }

  /** How one document appears on the docket of a case in `court`, if it does. */
  function Shown(s: State, v: Option<Viewer>, court: nat, id: nat): Option<Item>
    requires id in s.docs && s.docs[id].envelope < |s.envelopes|
  {
    var d, e := s.docs[id], s.envelopes[s.docs[id].envelope];
    if d.removedAt.Some? || d.file.docType.FeeWaiverOrder? then None
    else if Staff(v, court) || Filer(v, e) then Some(Original(id))
    else if PrivateType(d.file.docType) then None
    else if d.publicCopy.Some? && 0 < d.publicCopy.value <= |s.copies| && s.copies[d.publicCopy.value - 1].document == id then
      Some(PublicCopy(id, d.publicCopy.value))
    else if !d.confidential then Some(Original(id))
    else None
  }

  predicate Listed(s: State, isRestricted: nat -> bool, v: Option<Viewer>, c: nat, item: Item) {
    && MayReadCase(s, isRestricted, v, c)
    && item.doc in s.docs && s.docs[item.doc].envelope < |s.envelopes|
    && var e := s.envelopes[s.docs[item.doc].envelope];
       e.case_ == Some(c) && EntryVisible(e, v) && Shown(s, v, s.cases[c].court, item.doc) == Some(item)
  }

  /** Build the docket filing by filing, document by document. */
  method GetCaseFilings(s: State, isRestricted: nat -> bool, v: Option<Viewer>, c: nat) returns (items: Option<seq<Item>>)
    requires forall id | id in s.docs :: id < s.nextDoc
    ensures items.None? <==> !MayReadCase(s, isRestricted, v, c)
    ensures items.Some? ==> forall item :: item in items.value <==> Listed(s, isRestricted, v, c, item)
  {
    if !MayReadCase(s, isRestricted, v, c) {
      return None;
    }
    var entries: seq<Item> := [];
    var f := 0;
    while f < |s.envelopes|
      invariant f <= |s.envelopes|
      invariant forall item :: item in entries <==> Listed(s, isRestricted, v, c, item) && s.docs[item.doc].envelope < f
    {
      var visible: seq<Item> := [];
      if s.envelopes[f].case_ == Some(c) && EntryVisible(s.envelopes[f], v) {
        visible := EntryDocuments(s, v, s.cases[c].court, f);
      }
      entries := entries + visible;
      f := f + 1;
    }
    return Some(entries);
  }

  method EntryDocuments(s: State, v: Option<Viewer>, court: nat, f: nat) returns (visible: seq<Item>)
    requires f < |s.envelopes| && forall id | id in s.docs :: id < s.nextDoc
    ensures forall item :: item in visible <==> item.doc in s.docs && s.docs[item.doc].envelope == f && Shown(s, v, court, item.doc) == Some(item)
  {
    visible := [];
    var id := 0;
    while id < s.nextDoc
      invariant id <= s.nextDoc
      invariant forall item :: item in visible <==> item.doc < id && item.doc in s.docs && s.docs[item.doc].envelope == f && Shown(s, v, court, item.doc) == Some(item)
    {
      if id in s.docs && s.docs[id].envelope == f {
        var item := Shown(s, v, court, id);
        if item.Some? {
          visible := visible + [item.value];
        }
      }
      id := id + 1;
    }
  }

  // ---------------------------------------------------------------- agreement

  /** An outsider: neither staff of the filing's court nor its filer. */
  predicate Outsider(s: State, v: Option<Viewer>, item: Item) {
    && item.doc in s.docs && s.docs[item.doc].envelope < |s.envelopes|
    && var e := s.envelopes[s.docs[item.doc].envelope]; !Staff(v, e.court) && !Filer(v, e)
  }

  predicate InGoodStanding(v: Option<Viewer>) {
    v.None? || v.value.active
  }

  /** What the invariants say of one document and its filing. */
  predicate Sound(s: State, id: nat) {
    && id in s.docs && s.docs[id].envelope < |s.envelopes|
    && var d, e := s.docs[id], s.envelopes[s.docs[id].envelope];
       && (d.publicCopy.Some? ==> d.confidential && 0 < d.publicCopy.value <= |s.copies| && s.copies[d.publicCopy.value - 1].document == id)
       && (e.case_.Some? ==> e.case_.value < |s.cases| && s.cases[e.case_.value].court == e.court)
  }

  lemma InvSound(s: State, id: nat)
    requires Inv(s) && id in s.docs
    ensures Sound(s, id)
  {
    assert DocOk(s, id);
    InvEnv(s, s.docs[id].envelope);
    hide Inv;
    assert CaseOk(s, s.envelopes[s.docs[id].envelope]);
  }

  /** In a state that meets the filing invariants, an outsider with a standing account sees what they may fetch. */
  lemma ListedIffDownloadable(s: State, isRestricted: nat -> bool, v: Option<Viewer>, item: Item)
    requires Sound(s, item.doc) && Outsider(s, v, item) && InGoodStanding(v)
    ensures var e := s.envelopes[s.docs[item.doc].envelope];
            MayDownload(s, isRestricted, v, item) <==> e.case_.Some? && Listed(s, isRestricted, v, e.case_.value, item)
  {
  }

  /** On every reachable docket, for anyone anonymous or active, an item is listed exactly when it may be downloaded. */
  lemma DocketMatchesDownloads(cfg: Config, r: seq<State>, x: nat, isRestricted: nat -> bool, v: Option<Viewer>, item: Item)
    requires Run(cfg, r) && x < |r| && Outsider(r[x], v, item) && InGoodStanding(v)
    ensures var e := r[x].envelopes[r[x].docs[item.doc].envelope];
            MayDownload(r[x], isRestricted, v, item) <==> e.case_.Some? && Listed(r[x], isRestricted, v, e.case_.value, item)
  {
    hide Run, Inv;
    RunInv(cfg, r, x);
    InvSound(r[x], item.doc);
    ListedIffDownloadable(r[x], isRestricted, v, item);
  }

  /** May an outsider look into the case? Anyone into an open one; into a sealed one only a standing account with a grant or the system administrator. */
  predicate CaseOpenTo(isRestricted: nat -> bool, v: Option<Viewer>, c: nat) {
    isRestricted(c) ==> v.Some? && v.value.active && (c in v.value.granted || v.value.systemAdmin)
  }

  /**
   What is public, said without the reading rules: an accepted filing in a case open to the viewer,
   a document that is neither removed nor waiver material, its original unless restricted and the
   copy now published and no other.
   */
  predicate Public(s: State, isRestricted: nat -> bool, v: Option<Viewer>, item: Item)
    requires item.doc in s.docs && s.docs[item.doc].envelope < |s.envelopes|
  {
    var d, e := s.docs[item.doc], s.envelopes[s.docs[item.doc].envelope];
    && e.status == Accepted && e.case_.Some? && CaseOpenTo(isRestricted, v, e.case_.value)
    && d.removedAt.None? && !d.file.docType.FeeWaiver? && !d.file.docType.FeeWaiverOrder?
    && match item
       case Original(_) => !d.confidential
       case PublicCopy(_, copyId) => d.publicCopy == Some(copyId)
  }

  lemma PublicIffDownloadable(s: State, isRestricted: nat -> bool, v: Option<Viewer>, item: Item)
    requires Sound(s, item.doc) && Outsider(s, v, item) && InGoodStanding(v)
    ensures MayDownload(s, isRestricted, v, item) <==> Public(s, isRestricted, v, item)
  {
  }

  /** In every reachable state an outsider with a standing account may fetch exactly what is public. */
  lemma OutsidersGetPublic(cfg: Config, r: seq<State>, x: nat, isRestricted: nat -> bool, v: Option<Viewer>, item: Item)
    requires Run(cfg, r) && x < |r| && Outsider(r[x], v, item) && InGoodStanding(v)
    ensures MayDownload(r[x], isRestricted, v, item) <==> Public(r[x], isRestricted, v, item)
  {
    hide Run, Inv;
    RunInv(cfg, r, x);
    InvSound(r[x], item.doc);
    PublicIffDownloadable(r[x], isRestricted, v, item);
  }

  /** Whoever they are, nobody is listed anything of a sealed case unless signed in, active, and its staff, granted or the administrator. */
  lemma SealedCase(s: State, isRestricted: nat -> bool, v: Option<Viewer>, c: nat, item: Item)
    requires isRestricted(c) && Listed(s, isRestricted, v, c, item)
    ensures v.Some? && v.value.active && c < |s.cases| && (s.cases[c].court in v.value.staffOf || c in v.value.granted || v.value.systemAdmin)
  {
  }

  /** The filer and the court's staff may read every document of the filing, removed and restricted ones too. */
  lemma InsidersRead(s: State, isRestricted: nat -> bool, v: Viewer, id: nat)
    requires id in s.docs && s.docs[id].envelope < |s.envelopes|
    requires v.id == s.envelopes[s.docs[id].envelope].filer || s.envelopes[s.docs[id].envelope].court in v.staffOf
    ensures MayDownload(s, isRestricted, Some(v), Original(id))
  {
  }

  /** On a docket they may read, the filer and the court's staff are listed the original of every document but removed ones and waiver orders. */
  lemma InsidersListed(s: State, isRestricted: nat -> bool, v: Viewer, c: nat, item: Item)
    requires item.doc in s.docs && s.docs[item.doc].envelope < |s.envelopes| && MayReadCase(s, isRestricted, Some(v), c)
    requires var e := s.envelopes[s.docs[item.doc].envelope];
             e.case_ == Some(c) && s.cases[c].court == e.court && (v.id == e.filer || e.court in v.staffOf)
    ensures Listed(s, isRestricted, Some(v), c, item) <==>
              item == Original(item.doc) && s.docs[item.doc].removedAt.None? && !s.docs[item.doc].file.docType.FeeWaiverOrder?
  {
  }

  lemma WithholdShape(s: State, actor: Actor, id: nat, expected: nat, now: Time)
    requires WithholdDocument(s, actor, id, expected, now).1 == Ok
    ensures var t := WithholdDocument(s, actor, id, expected, now).0; id in t.docs && t.docs[id].confidential && t.docs[id].publicCopy.None?
  {
  }

  /** After a document is withheld no outsider gets its original again, nor any copy until its access is decided anew. */
  lemma WithheldIsHidden(cfg: Config, r: seq<State>, i: nat, j: nat, actor: Actor, id: nat, expected: nat, now: Time,
                         isRestricted: nat -> bool, v: Option<Viewer>, item: Item)
    requires Run(cfg, r) && i < j < |r| && WithholdDocument(r[i], actor, id, expected, now) == (r[i + 1], Ok)
    requires item.doc == id && Outsider(r[j], v, item) && id in r[i + 1].docs
    requires item.Original? || r[j].docs[id].accessVersion == r[i + 1].docs[id].accessVersion
    ensures !MayDownload(r[j], isRestricted, v, item)
  {
    hide Run, Inv, WithholdDocument;
    WithholdShape(r[i], actor, id, expected, now);
    RunInv(cfg, r, i + 1);
    RunGrows(cfg, r, i + 1, j);
    DocAt(r[i + 1], id);
    assert DocGrows(r[i + 1].docs[id], r[j].docs[id]);
  }

  lemma DocAt(s: State, id: nat)
    requires Inv(s) && id in s.docs
    ensures DocOk(s, id)
  {
  }

  lemma PublishedShape(s: State, actor: Actor, id: nat, copyId: nat, expected: nat, now: Time)
    requires PublishCopy(s, actor, id, copyId, expected, now).1 == Ok
    ensures var t := PublishCopy(s, actor, id, copyId, expected, now).0;
            && id in t.docs && t.docs[id].confidential && t.docs[id].publicCopy == Some(copyId) && t.docs[id].removedAt.None?
            && t.docs[id].envelope < |t.envelopes| && t.envelopes[t.docs[id].envelope].status.Accepted? && t.envelopes[t.docs[id].envelope].case_.Some?
            && !PrivateType(t.docs[id].file.docType)
  {
  }

  /** Publication serves the chosen copy, and it alone, to everyone the case is open to. */
  lemma PublishedIsServed(cfg: Config, r: seq<State>, i: nat, actor: Actor, id: nat, copyId: nat, expected: nat, now: Time,
                          isRestricted: nat -> bool, v: Option<Viewer>, item: Item)
    requires Run(cfg, r) && i + 1 < |r| && PublishCopy(r[i], actor, id, copyId, expected, now) == (r[i + 1], Ok)
    requires item.doc == id && Outsider(r[i + 1], v, item) && InGoodStanding(v)
    ensures var t := r[i + 1];
            && t.envelopes[t.docs[id].envelope].case_.Some?
            && (MayDownload(t, isRestricted, v, item) <==>
                  item == PublicCopy(id, copyId) && CaseOpenTo(isRestricted, v, t.envelopes[t.docs[id].envelope].case_.value))
  {
    hide Run, Inv, PublishCopy, MayDownload;
    PublishedShape(r[i], actor, id, copyId, expected, now);
    OutsidersGetPublic(cfg, r, i + 1, isRestricted, v, item);
  }

  /**
   A deactivated outsider is shown no docket at all, so the two rules agree on an item exactly when
   it may not be downloaded: they part on the original of a public document in an open case.
   */
  lemma InactiveViewer(s: State, isRestricted: nat -> bool, v: Viewer, item: Item)
    requires Sound(s, item.doc) && Outsider(s, Some(v), item) && !v.active
    ensures var d, e := s.docs[item.doc], s.envelopes[s.docs[item.doc].envelope];
            && (forall c :: !Listed(s, isRestricted, Some(v), c, item))
            && (MayDownload(s, isRestricted, Some(v), item) <==>
                  && item.Original? && !d.confidential && !PrivateType(d.file.docType) && d.removedAt.None?
                  && OnPublicDocket(e.status) && e.case_.Some? && !isRestricted(e.case_.value))
  {
  }

  /** A published copy stands for a restricted original, and no later step lifts the restriction. */
  lemma PublishedStaysRestricted(cfg: Config, r: seq<State>, i: nat, j: nat, id: nat)
    requires Run(cfg, r) && i <= j < |r| && id in r[i].docs && r[i].docs[id].publicCopy.Some? && id in r[j].docs
    ensures r[i].docs[id].confidential && r[j].docs[id].confidential
  {
    hide Run;
    RunInv(cfg, r, i);
    RunGrows(cfg, r, i, j);
    assert DocOk(r[i], id);
    hide Inv;
    assert DocGrows(r[i].docs[id], r[j].docs[id]);
  }

  function NoneRestricted(): nat -> bool {
    (c: nat) => false
  }

  // ---------------------------------------------------------------- a run on which the rules part

  const DEMO := Config(true, true, false, map[6 := 0], (at: Time) => (z: string) => 0)
  const FILER := Actor(1, true, {}, {}, {}, {})
  const CLERK := Actor(2, true, {5}, {}, {}, {})
  const COURT := Place(5, true, true)
  const DATA := NewFiling(5, None, 6, Initial, Details(Some("Complaint"), None, false, None))

  function ComplaintFile(sha: Sha): File {
    File(Other("COMPLAINT"), "Complaint", sha, 1, "application/pdf", None, true)
  }

  function Created(): State {
    EMPTY.(envelopes := [NewEnvelope(EMPTY, 1, 0, DATA)])
  }

  lemma CreateComplaint()
    ensures Step(DEMO, EMPTY, Created())
  {
    var q := Create(FILER, 0, DATA, Some(COURT), false);
    assert CreateFiling(EMPTY, FILER, 0, DATA, Some(COURT), false).0 == Created();
    assert Possible(EMPTY, q) && Apply(DEMO, EMPTY, q).0 == Created();
  }

  function Attached(sha: Sha): State {
    var e := Created().envelopes[0];
    Created().(envelopes := [e.(feeVersion := 1)], nextDoc := 2,
               docs := map[1 := Doc(0, "filings/0/a", ComplaintFile(sha), 0, false, None, None, 0, None)],
               uploads := map[(0, 0) := Upload(FingerprintOf(ComplaintFile(sha), "complaint.pdf", false), Some(1))])
  }

  lemma AttachComplaint(sha: Sha)
    ensures Step(DEMO, Created(), Attached(sha))
  {
    var q := PutDocument(FILER, 0, 0, "filings/0/a", ComplaintFile(sha), "complaint.pdf", false, 0);
    var t := UploadDocument(Created(), FILER, 0, 0, "filings/0/a", ComplaintFile(sha), "complaint.pdf", false, 0).0;
    assert Created().txs + [] == Created().txs;
    assert t == Attached(sha);
    assert Possible(Created(), q) && Apply(DEMO, Created(), q).0 == t;
  }

  lemma OneDocument(s: State)
    requires s.nextDoc == 2 && s.docs.Keys == {1} && IsCurrent(s.docs, 0, 1)
    ensures CurrentOf(s, 0) == [1]
  {
    assert Current(s.docs, 0, 0) == [] && Current(s.docs, 0, 1) == [];
  }

  lemma ComplaintReady(sha: Sha)
    ensures var s := Attached(sha);
            SubmitCheck(DEMO, s, FILER, 0, None, SubmissionTokenOf(s, 0), Some(COURT), false, true) == Ok
  {
    var s := Attached(sha);
    OneDocument(s);
    assert Paid(DEMO, s.payments, 0, 1) == 0;
  }

  lemma SubmitEffect(cfg: Config, s: State, q: Request)
    requires q.Submit? && q.f < |s.envelopes|
    requires SubmitCheck(cfg, s, q.actor, q.f, q.submitKey, q.token, q.place, q.participant, q.required) == Ok
    requires Stored(s.docs, CurrentOf(s, q.f)) && Prints(s.docs, CurrentOf(s, q.f)) == q.prints
    ensures var t := Apply(cfg, s, q).0;
            && t.envelopes == s.envelopes[q.f := SubmittedEnvelope(s.envelopes[q.f], SubmitAssessment(cfg, s, q.f, q.now), q.now)]
            && t.docs == Retain(s.docs, CurrentOf(s, q.f), q.now) && t.nextDoc == s.nextDoc && t.cases == s.cases && t.reviews == s.reviews
  {
    hide SubmitCheck, Current, Fees, SubmitAssessment, SubmittedEnvelope, Retain;
  }

  /** The complaint is submitted: one receipt, its document retained. */
  lemma SubmitComplaint(sha: Sha) returns (t: State)
    ensures Step(DEMO, Attached(sha), t) && |t.envelopes| == 1 && t.envelopes[0].status.Submitted? && t.envelopes[0].submissions == 1
    ensures t.envelopes[0].filedAt.Some? && t.envelopes[0].case_.None? && !OrderedDate(t.envelopes[0])
    ensures t.envelopes[0].court == 5 && t.envelopes[0].filer == 1 && t.envelopes[0].filingType.Initial?
    ensures t.nextDoc == 2 && t.docs == map[1 := Attached(sha).docs[1].(retainedAt := Some(0))] && t.cases == [] && t.reviews == {}
  {
    var s := Attached(sha);
    ComplaintReady(sha);
    OneDocument(s);
    CurrentAre(s.docs, 0, s.nextDoc);
    hide SubmitCheck, Current, SubmissionTokenOf, SubmitAssessment, Apply;
    var q := Submit(FILER, 0, None, SubmissionTokenOf(s, 0), Some(COURT), false, true, Prints(s.docs, CurrentOf(s, 0)), 0);
    SubmitEffect(DEMO, s, q);
    t := Apply(DEMO, s, q).0;
    assert Possible(s, q) && Step(DEMO, s, t);
    hide Step;
    assert t.docs == map[1 := Attached(sha).docs[1].(retainedAt := Some(0))];
  }

  /** A clerk's check reads the file back and gathers evidence. */
  lemma CheckComplaint(sha: Sha, s: State) returns (t: State, ev: Evidence)
    requires |s.envelopes| == 1 && s.envelopes[0].status.Submitted? && s.envelopes[0].submissions == 1 && s.envelopes[0].court == 5 && s.envelopes[0].filer == 1
    requires !OrderedDate(s.envelopes[0]) && s.nextDoc == 2 && s.docs == map[1 := Attached(sha).docs[1].(retainedAt := Some(0))] && s.reviews == {}
    ensures Step(DEMO, s, t) && t == s.(reviews := {ev}) && ev.filing == 0 && ev.action.Accept? && ev.count == 1 && !ev.ordered
    ensures ev.dateVersion == s.envelopes[0].dateVersion && ev.prints == Some(LockedPrints(s, 0, false))
  {
    OneDocument(s);
    CurrentAre(s.docs, 0, s.nextDoc);
    hide Current;
    var storage: Storage := map["filings/0/a" := (sha, 1)];
    var q := Probe(CLERK, 0, Accept, 1, storage);
    assert AllIntact(s.docs, [1], storage);
    assert ReviewIds(s, 0, OrderOf(s, 0)) == [1];
    ev := VerifyReview(s, CLERK, 0, Accept, 1, storage).1.value;
    t := Apply(DEMO, s, q).0;
    assert Possible(s, q);
    assert {} + {ev} == {ev};
    assert LockedPrints(s, 0, false) == Prints(s.docs, [1]);
  }

  /** The clerk accepts, which opens an open case. */
  lemma AcceptComplaint(s: State, ev: Evidence) returns (t: State)
    requires |s.envelopes| == 1 && s.envelopes[0].status.Submitted? && s.envelopes[0].submissions == 1 && s.envelopes[0].court == 5 && s.envelopes[0].filer == 1
    requires s.envelopes[0].filedAt.Some? && s.envelopes[0].case_.None? && s.envelopes[0].filingType.Initial?
    requires s.reviews == {ev} && ev.filing == 0 && ev.action.Accept? && ev.count == 1 && !ev.ordered
    requires ev.dateVersion == s.envelopes[0].dateVersion && ev.prints == Some(LockedPrints(s, 0, false)) && s.cases == []
    ensures Step(DEMO, s, t) && |t.envelopes| == 1 && t.envelopes[0].status.Accepted? && t.envelopes[0].case_ == Some(0)
    ensures t.envelopes[0].court == 5 && t.envelopes[0].filer == 1 && t.docs == s.docs && |t.cases| == 1 && t.cases[0].court == 5
  {
    hide LockedPrints, AssessmentBy;
    var q := Record(CLERK, ev, "", Some(COURT), CmsDone("1"), 0);
    t := Apply(DEMO, s, q).0;
    assert Possible(s, q);
  }

  /** A run at whose end a deactivated stranger may download, but is not listed, the original of a public complaint. */
  lemma InactiveViewerExample(sha: Sha) returns (r: seq<State>, v: Viewer, item: Item)
    ensures Run(DEMO, r) && !v.active && Outsider(r[|r| - 1], Some(v), item)
    ensures var s := r[|r| - 1];
            MayDownload(s, NoneRestricted(), Some(v), item) && forall c :: !Listed(s, NoneRestricted(), Some(v), c, item)
  {
    hide Step;
    CreateComplaint();
    AttachComplaint(sha);
    var submitted := SubmitComplaint(sha);
    var checked, ev := CheckComplaint(sha, submitted);
    LockedSame(submitted, checked);
    var accepted := AcceptComplaint(checked, ev);
    r := [EMPTY, Created(), Attached(sha), submitted, checked, accepted];
    v, item := Viewer(3, false, false, {}, {}), Original(1);
  }

  lemma LockedSame(s: State, t: State)
    requires |s.envelopes| == 1 && t == s.(reviews := t.reviews)
    ensures LockedPrints(t, 0, false) == LockedPrints(s, 0, false)
  {
  }
}
