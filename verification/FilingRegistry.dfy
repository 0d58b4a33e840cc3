/** The filing tables as the endpoints change them, one locked section at a time. */
module FilingRegistry {
  import opened Common
  import opened Filings
  import opened FilingInvariants
  import opened FilingRequests
  import opened FilingSteps
  import opened BatchReviews
  import CourtCalendars

  lemma RetainNone(docs: map<nat, Doc>, now: Time)
    ensures Retain(docs, [], now) == docs
  {
  }

  lemma RetainOneMore(docs: map<nat, Doc>, ids: seq<nat>, k: nat, now: Time)
    requires k < |ids| && ids[k] in docs
    ensures ids[k] in Retain(docs, ids[..k], now)
    ensures var before := Retain(docs, ids[..k], now);
            Retain(docs, ids[..k + 1], now)
            == if before[ids[k]].retainedAt.None? then before[ids[k] := before[ids[k]].(retainedAt := Some(now))] else before
  {
    assert ids[..k + 1] == ids[..k] + [ids[k]];
  }

  class Registry {
    var envelopes: seq<Envelope>
    var docs: map<nat, Doc>
    var nextDoc: nat
    var copies: seq<Copy>
    var txs: seq<Tx>
    var payments: seq<Payment>
    var cases: seq<Case>
    var uploads: map<(nat, Key), Upload>
    var reviews: set<Evidence>
    var calendars: seq<CourtCalendars.Calendar>

    function Tables(): State
      reads this
    {
      State(envelopes, docs, nextDoc, copies, txs, payments, cases, uploads, reviews, calendars)
    }

    /** The tables meet every invariant of a reachable state. */
    ghost predicate Valid()
      reads this
    {
      Inv(Tables())
    }

    constructor ()
      ensures Tables() == EMPTY && Valid()
    {
      envelopes, docs, nextDoc, copies, txs, payments, cases, uploads, reviews, calendars := [], map[], 1, [], [], [], [], map[], {}, [];
      new;
      EmptyInv();
    }

    // -------------------------------------------------------------- shared writers

    method SetEnvelope(f: nat, e: Envelope)
      requires f < |envelopes|
      modifies this
      ensures Tables() == old(Tables()).(envelopes := old(envelopes)[f := e])
    {
      envelopes := envelopes[f := e];
    }

    method RecordTransaction(f: nat, event: Event, actor: nat, now: Time, key: Option<Key>)
      requires f < |envelopes|
      modifies this
      ensures Tables() == old(Tables()).(txs := old(txs) + [Tx(f, old(envelopes)[f].submissions, event, actor, now, key)])
    {
      txs := txs + [Tx(f, envelopes[f].submissions, event, actor, now, key)];
    }

    method RetainDocuments(ids: seq<nat>, now: Time)
      requires Stored(docs, ids)
      modifies this
      ensures Tables() == old(Tables()).(docs := Retain(old(docs), ids, now))
    {
      RetainNone(docs, now);
      assert ids[..0] == [];
      var k := 0;
      while k < |ids|
        invariant k <= |ids| && Tables() == old(Tables()).(docs := Retain(old(docs), ids[..k], now))
      {
        RetainOneMore(old(docs), ids, k, now);
        if docs[ids[k]].retainedAt.None? {
          docs := docs[ids[k] := docs[ids[k]].(retainedAt := Some(now))];
        }
        k := k + 1;
      }
      assert ids[..k] == ids;
    }

    method AddDocument(d: Doc) returns (id: nat)
      modifies this
      ensures id == old(nextDoc)
      ensures Tables() == old(Tables()).(docs := old(docs)[id := d], nextDoc := id + 1)
    {
      id := nextDoc;
      docs, nextDoc := docs[id := d], nextDoc + 1;
    }

    // -------------------------------------------------------------- fees

    method FeesOf(cfg: Config, f: nat) returns (result: FeeState)
      requires f < |envelopes|
      ensures result == Fees(cfg, Tables(), f)
    {
      var e := envelopes[f];
      var paid, p := 0, 0;
      assert payments[..0] == [];
      while p < |payments|
        invariant p <= |payments| && paid == Paid(cfg, payments[..p], f, e.filer)
      {
        assert payments[..p + 1][..p] == payments[..p];
        if Counts(cfg, payments[p], f, e.filer) {
          paid := paid + payments[p].amount;
        }
        p := p + 1;
      }
      assert payments[..p] == payments;
      var assessment: Option<nat> := None;
      if e.feeAssessment.Some? && e.feeAssessment.value < |txs| && txs[e.feeAssessment.value].filing == f
         && txs[e.feeAssessment.value].event.FeeAssessed? {
        assessment := e.feeAssessment;
      }
      var stale := e.feeAssessment.Some? && (assessment.None? || txs[assessment.value].event.version != e.feeVersion);
      var source, total: Option<nat> := Unassessed, None;
      if e.filingType.ServiceOnly? {
        source, total := ServiceRecord, Some(0);
      } else if e.waiverGranted == Some(true) {
        source, total := WaiverDecision, Some(0);
      } else if e.waiverGranted == Some(false) && e.waiverDue.Some? {
        source, total := WaiverDecision, e.waiverDue;
      } else if assessment.Some? && !stale {
        source, total := CourtAssessment, Some(txs[assessment.value].event.total);
      } else if e.feeAssessment.None? && cfg.demo && e.feeReviewAt.None? {
        if e.caseType in cfg.filingFees && (e.filingType.Initial? || cfg.filingFees[e.caseType] == 0) {
          source, total := DemoExample, Some(cfg.filingFees[e.caseType]);
        }
      }
      if source.WaiverDecision? || source.ServiceRecord? {
        assessment, stale := None, false;
      }
      var balance: Option<nat>, overpaid: nat := None, 0;
      if total.Some? {
        balance := Some(if total.value > paid then total.value - paid else 0);
        overpaid := if paid > total.value then paid - total.value else 0;
      }
      result := FeeState(source, total, paid, balance, overpaid,
                         balance == Some(0) || (e.details.waiverRequested && e.waiverGranted.None?), assessment, stale);
    }

    /** The reason of a fee review that is open, from the latest request. */
    method ReviewReason(f: nat) returns (reason: Option<string>)
      requires f < |envelopes|
      ensures reason == if envelopes[f].feeReviewAt.None? || LatestRequest(txs, f).None? then None
                        else Some(txs[LatestRequest(txs, f).value].event.reason)
    {
      if envelopes[f].feeReviewAt.None? {
        return None;
      }
      var best: Option<nat>, i := None, 0;
      assert txs[..0] == [];
      while i < |txs|
        invariant i <= |txs| && best == LatestRequest(txs[..i], f)
      {
        assert txs[..i + 1][..i] == txs[..i];
        if txs[i].filing == f && txs[i].event.FeeReviewRequested? && (best.None? || txs[best.value].at <= txs[i].at) {
          best := Some(i);
        }
        i := i + 1;
      }
      assert txs[..i] == txs;
      return if best.Some? then Some(txs[best.value].event.reason) else None;
    }

    method PermissionsFor(cfg: Config, f: nat, viewer: Option<Actor>) returns (flags: Permissions)
      requires f < |envelopes|
      ensures flags == PermissionsOf(cfg, Tables(), f, viewer)
    {
      hide Fees;
      var e := envelopes[f];
      var fees := FeesOf(cfg, f);
      var canManage := viewer.Some? && viewer.value.id == e.filer && viewer.value.mayFile;
      var reviewable := !e.filingType.ServiceOnly? && !(e.status.Rejected? || e.status.Served?) && !e.details.waiverRequested && e.waiverGranted.None?;
      flags := Permissions(false, false, false, false, false, false);
      flags := flags.(requestReview := reviewable && canManage && e.feeReviewAt.None?);
      var due := fees.balance.Some? && fees.balance.value > 0 && !(e.status.Rejected? || e.status.Served?)
                 && !(e.details.waiverRequested && e.waiverGranted.None?);
      flags := flags.(pay := canManage && due);
      if viewer.Some? && viewer.value.id != e.filer {
        flags := flags.(assess := reviewable && e.court in viewer.value.staffOf);
        flags := flags.(manageCredits := cfg.externalPayments && e.court in viewer.value.administers);
        flags := flags.(recordCredit := flags.manageCredits && (fees.source.CourtAssessment? || fees.source.WaiverDecision?) && due);
      }
      flags := flags.(requestWaiver := canManage && e.submittedAt.None? && e.waiverGranted.None? && !e.filingType.ServiceOnly? && e.status.Draft?);
    }

    // -------------------------------------------------------------- drafts and documents

    method Create(actor: Actor, key: Key, data: NewFiling, place: Option<Place>, participant: bool) returns (reply: Reply)
      requires Valid()
      modifies this
      ensures Valid() && Grows(old(Tables()), Tables())
      ensures (Tables(), reply) == CreateFiling(old(Tables()), actor, key, data, place, participant)
    {
      hide Inv, Grows, HeldOrRaised;
      CreateKeeps(Tables(), actor, key, data, place, participant);
      if !actor.mayFile {
        return Refused(403);
      }
      if data.filingType.Initial? != data.case_.None? {
        return Refused(422);
      }
      var found := FindCreation(envelopes, actor.id, key);
      if found.Some? {
        return if envelopes[found.value].creation == data then Replayed else Refused(409);
      }
      var blocked := DestinationError(Tables(), data.court, data.case_, data.caseType, data.filingType, true, place, participant);
      if blocked.Some? {
        return Refused(blocked.value);
      }
      envelopes := envelopes + [NewEnvelope(Tables(), actor.id, key, data)];
      return Ok;
    }

    method PutDocument(actor: Actor, f: nat, key: Key, objectKey: string, file: File, filename: string, confidential: bool, now: Time)
      returns (reply: Reply)
      requires Valid()
      modifies this
      ensures Valid() && Grows(old(Tables()), Tables())
      ensures (Tables(), reply) == UploadDocument(old(Tables()), actor, f, key, objectKey, file, filename, confidential, now)
    {
      hide Inv, Grows, HeldOrRaised;
      UploadKeeps(Tables(), actor, f, key, objectKey, file, filename, confidential, now);
      if !Owned(Tables(), actor, f) {
        return Refused(OwnerError(Tables(), actor, f));
      }
      var fingerprint := FingerprintOf(file, filename, confidential);
      if (f, key) in uploads {
        return UploadReply(Tables(), f, key, fingerprint);
      }
      if !Editable(envelopes[f].status) {
        return Refused(400);
      }
      if CourtType(file.docType) {
        return Refused(403);
      }
      var id := AddDocument(Doc(f, objectKey, file, now, confidential || PrivateType(file.docType), None, None, 0, None));
      uploads := uploads[(f, key) := Upload(fingerprint, Some(id))];
      SetEnvelope(f, envelopes[f].(feeVersion := envelopes[f].feeVersion + 1));
      assert txs + [] == txs;
      return Ok;
    }

    method DropDocument(actor: Actor, f: nat, id: nat, now: Time) returns (reply: Reply)
      requires Valid()
      modifies this
      ensures Valid() && Grows(old(Tables()), Tables())
      ensures (Tables(), reply) == RemoveDocument(old(Tables()), actor, f, id, now)
    {
      hide Inv, Grows, HeldOrRaised;
      RemoveKeeps(Tables(), actor, f, id, now);
      if !Owned(Tables(), actor, f) {
        return Refused(OwnerError(Tables(), actor, f));
      }
      var e := envelopes[f];
      if !Editable(e.status) {
        return Refused(400);
      }
      if !IsCurrent(docs, f, id) {
        return Refused(404);
      }
      SetEnvelope(f, e.(feeVersion := e.feeVersion + 1));
      if docs[id].retainedAt.Some? || e.submittedAt.Some? {
        docs := docs[id := docs[id].(removedAt := Some(now))];
      } else {
        uploads := Forget(uploads, id);
        docs := docs - {id};
      }
      assert txs + [] == txs;
      return Ok;
    }

    // -------------------------------------------------------------- submission and review

    /** Read every listed file back; none listed is itself a failure. */
    method VerifyDocuments(ids: seq<nat>, storage: Storage) returns (ok: bool)
      requires Stored(docs, ids)
      ensures ok == AllIntact(docs, ids, storage)
    {
      if ids == [] {
        return false;
      }
      var k := 0;
      while k < |ids|
        invariant k <= |ids| && forall i | 0 <= i < k :: Intact(docs[ids[i]], storage)
      {
        var doc := docs[ids[k]];
        if doc.key !in storage {
          return false;
        }
        var (digest, size) := storage[doc.key];
        if digest != doc.file.sha || size != doc.file.size {
          return false;
        }
        k := k + 1;
      }
      ok := true;
    }

    method CollectPrints(ids: seq<nat>) returns (prints: seq<Print>)
      requires Stored(docs, ids)
      ensures prints == Prints(docs, ids)
    {
      prints := [];
      var k := 0;
      while k < |ids|
        invariant k <= |ids| && |prints| == k && forall i | 0 <= i < k :: prints[i] == PrintOf(ids[i], docs[ids[i]])
      {
        var doc := docs[ids[k]];
        prints := prints + [Print(ids[k], doc.file.sha, doc.file.size)];
        k := k + 1;
      }
    }

    method SubmitUnlocked(cfg: Config, actor: Actor, f: nat, key: Option<Key>, token: SubmissionToken, place: Option<Place>, participant: bool,
                          required: bool, storage: Storage) returns (reply: Reply, prints: seq<Print>)
      ensures (reply, prints) == SubmitProbe(cfg, Tables(), actor, f, key, token, place, participant, required, storage)
    {
      hide SubmitCheck, Current, AllIntact;
      prints := [];
      reply := SubmitCheck(cfg, Tables(), actor, f, key, token, place, participant, required);
      if reply != Ok {
        return;
      }
      CurrentAre(docs, f, nextDoc);
      var ids := CurrentOf(Tables(), f);
      var intact := VerifyDocuments(ids, storage);
      if !intact {
        reply := Refused(409);
        return;
      }
      prints := CollectPrints(ids);
    }

    method SubmitLocked(cfg: Config, actor: Actor, f: nat, key: Option<Key>, token: SubmissionToken, place: Option<Place>, participant: bool,
                        required: bool, prints: seq<Print>, now: Time) returns (reply: Reply)
      requires Valid() && OffsetsUnderADay(cfg)
      modifies this
      ensures Valid() && Grows(old(Tables()), Tables())
      ensures (Tables(), reply) == SubmitFiling(cfg, old(Tables()), actor, f, key, token, place, participant, required, prints,
                                                SubmitAssessment(cfg, old(Tables()), f, now), now)
    {
      hide Inv, Grows, HeldOrRaised, SubmitCheck, Fees, Current, CourtCalendars.Assess;
      SubmitKeeps(cfg, Tables(), actor, f, key, token, place, participant, required, prints, SubmitAssessment(cfg, Tables(), f, now), now);
      reply := SubmitCheck(cfg, Tables(), actor, f, key, token, place, participant, required);
      if reply != Ok {
        return;
      }
      SubmitOwner(cfg, Tables(), actor, f, key, token, place, participant, required);
      CurrentAre(docs, f, nextDoc);
      var ids := CurrentOf(Tables(), f);
      var current := CollectPrints(ids);
      if current != prints {
        return Refused(409);
      }
      var fees, manifest, e := Fees(cfg, Tables(), f), Manifest(docs, ids), envelopes[f];
      e := e.(filedAt := OrElse(e.filedAt, OrElse(e.submittedAt, Some(now))));
      e := e.(submittedAt := Some(now), review := None, cmsError := None);
      e := e.(submissions := e.submissions + 1, dateVersion := e.dateVersion + 1);
      if !e.filingType.ServiceOnly? && e.filingDate.None? {
        var assessed := CourtCalendars.FilingDateForReceipt(calendars, e.court, e.filedAt.value, cfg.offsets(e.filedAt.value));
        e := e.(filingDate := assessed.filingDate, basis := Some(Assessed(assessed)));
      }
      e := e.(status := if e.filingType.ServiceOnly? then Served else Submitted);
      SetEnvelope(f, e);
      RetainDocuments(ids, now);
      RecordTransaction(f, Receipt(e.filingType.ServiceOnly?, e.case_, e.court, e.filingType, e.basis, fees, manifest), e.filer, now, key);
    }

    /** The unlocked check before a review: guards, the order behind an ordered date, the stored files, the fingerprints. */
    method Verify(actor: Actor, f: nat, action: Action, count: nat, storage: Storage) returns (reply: Reply, evidence: Option<Evidence>)
      requires Valid()
      modifies this`reviews
      ensures Valid() && Grows(old(Tables()), Tables()) && (evidence.Some? ==> evidence.value in reviews)
      ensures (reply, evidence) == VerifyReview(old(Tables()), actor, f, action, count, storage)
      ensures (Tables(), reply) == ProbeReview(old(Tables()), actor, f, action, count, storage)
    {
      hide Inv, Grows, HeldOrRaised, Current, AllIntact;
      ProbeKeeps(Tables(), actor, f, action, count, storage);
      if f >= |envelopes| {
        return Refused(404), None;
      }
      if !IndependentStaff(Tables(), actor, f) {
        return Refused(403), None;
      }
      var e := envelopes[f];
      if e.submissions != count {
        return Refused(409), None;
      }
      if !Pending(e.status) {
        return Refused(400), None;
      }
      var ordered, dateVersion := e.basis.Some? && e.basis.value.CourtOrder?, e.dateVersion;
      var prints: Option<seq<Print>> := None;
      if action.Accept? {
        var order: Option<nat> := None;
        if ordered {
          var id := e.basis.value.order;
          if id in docs && docs[id].envelope == f && docs[id].file.docType.FilingDateOrder? && docs[id].retainedAt.Some? {
            order := Some(id);
          }
          if order.None? || e.filingDate.None? {
            return Refused(409), None;
          }
        }
        CurrentAre(docs, f, nextDoc);
        var ids := CurrentOf(Tables(), f);
        if ids == [] {
          return Refused(409), None;
        }
        if order.Some? {
          ids := ids + [order.value];
        }
        assert ids == ReviewIds(Tables(), f, OrderOf(Tables(), f));
        var intact := VerifyDocuments(ids, storage);
        if !intact {
          return Refused(409), None;
        }
        var read := CollectPrints(ids);
        prints := Some(read);
      }
      reply, evidence := Ok, Some(Evidence(f, action, count, dateVersion, ordered, prints));
      reviews := reviews + {evidence.value};
    }

    method Record(cfg: Config, actor: Actor, ev: Evidence, reason: string, place: Option<Place>, cms: CmsResult, now: Time) returns (reply: Reply)
      requires Valid() && OffsetsUnderADay(cfg) && ev in reviews && ev.filing < |envelopes|
      modifies this
      ensures Valid() && Grows(old(Tables()), Tables())
      ensures (Tables(), reply)
           == RecordReview(cfg, old(Tables()), actor, ev, reason, place, ReviewAssessment(cfg, old(Tables()), ev.filing), cms, now)
    {
      hide Inv, Grows, HeldOrRaised, LockedPrints, DestinationError, CourtCalendars.Assess, Accepting;
      RecordKeeps(cfg, Tables(), actor, ev, reason, place, ReviewAssessment(cfg, Tables(), ev.filing), cms, now);
      var f := ev.filing;
      var e := envelopes[f];
      if !IndependentStaff(Tables(), actor, f) {
        return Refused(403);
      }
      if e.submissions != ev.count {
        return Refused(409);
      }
      if !Pending(e.status) {
        return Refused(400);
      }
      if !ev.action.Accept? {
        if reason == "" {
          return Refused(400);
        }
        e := e.(review := Some(Review(actor.id, now, Some(reason))), dateVersion := e.dateVersion + 1);
        e := e.(status := if ev.action.Reject? then Rejected else Returned);
        SetEnvelope(f, e);
        RecordTransaction(f, Decided(e.status, Some(reason)), actor.id, now, None);
        return Ok;
      }
      if e.dateVersion != ev.dateVersion || DestinationError(Tables(), e.court, e.case_, e.caseType, e.filingType, false, place, false).Some? {
        return Refused(409);
      }
      if ev.prints != Some(LockedPrints(Tables(), f, ev.ordered)) || OrElse(e.filedAt, e.submittedAt).None? {
        return Refused(409);
      }
      var assessed, receivedAt := NO_ASSESSMENT, OrElse(e.filedAt, e.submittedAt).value;
      if !ev.ordered {
        assessed := CourtCalendars.FilingDateForReceipt(calendars, e.court, receivedAt, cfg.offsets(receivedAt));
        if assessed.filingDate.None? && !cfg.demo {
          return Refused(409);
        }
      } else {
        OrderedIgnores(Tables(), ev, actor, assessed, ReviewAssessment(cfg, Tables(), f), cms, now);
      }
      AcceptEnvelope(ev, actor, assessed, cms, now);
      return Ok;
    }

    method AcceptEnvelope(ev: Evidence, actor: Actor, assessed: CourtCalendars.Assessment, cms: CmsResult, now: Time)
      requires ev.filing < |envelopes| && OrElse(envelopes[ev.filing].filedAt, envelopes[ev.filing].submittedAt).Some?
      modifies this
      ensures Tables() == Accepting(old(Tables()), ev, actor, assessed, cms, now)
    {
      var f, e := ev.filing, envelopes[ev.filing];
      var receivedAt := OrElse(e.filedAt, e.submittedAt).value;
      e := e.(review := Some(Review(actor.id, now, None)));
      if !ev.ordered && e.basis != Some(Assessed(assessed)) {
        var previous := e.filingDate;
        e := e.(filingDate := assessed.filingDate, basis := Some(Assessed(assessed)));
        RecordTransaction(f, DateAssessed(previous, Assessed(assessed)), actor.id, now, None);
      }
      e := e.(dateVersion := e.dateVersion + 1, status := UnderReview);
      if cms.CmsError? {
        e := e.(cmsError := Some(cms.message), cmsFiling := None);
        SetEnvelope(f, e);
        RecordTransaction(f, CmsFailed(cms.message), actor.id, now, None);
      } else {
        if e.case_.None? {
          cases := cases + [Case(e.court, e.caseType, if e.details.title.Some? then e.details.title.value else "Untitled Case",
                                 receivedAt, e.filingDate, 0, f)];
          e := e.(case_ := Some(|cases| - 1));
        }
        e := e.(status := Accepted, cmsError := None, cmsFiling := Some(cms.filing));
        SetEnvelope(f, e);
        RecordTransaction(f, Decided(Accepted, None), actor.id, now, None);
      }
    }

    method Update(actor: Actor, f: nat, edit: Edit) returns (reply: Reply)
      requires Valid()
      modifies this
      ensures Valid() && Grows(old(Tables()), Tables())
      ensures (Tables(), reply) == UpdateDetails(old(Tables()), actor, f, edit)
    {
      hide Inv, Grows, HeldOrRaised;
      UpdateKeeps(Tables(), actor, f, edit);
      if !Owned(Tables(), actor, f) {
        return Refused(OwnerError(Tables(), actor, f));
      }
      var e, d := envelopes[f], envelopes[f].details;
      if edit.token.None? && edit != Edit(None, None, None, None, None) {
        return Refused(422);
      }
      if edit.token.Some? && edit.token.value != TokenOf(Tables(), f) {
        return Refused(409);
      }
      if !Editable(e.status) {
        return Refused(400);
      }
      if e.submittedAt.Some? && ((edit.waiver.Some? && edit.waiver.value != d.waiverRequested)
                                 || (edit.waiverReason.Some? && edit.waiverReason != d.waiverReason)) {
        return Refused(409);
      }
      if edit.title.Some? && edit.title != d.title {
        if e.case_.Some? {
          return Refused(409);
        }
        d := d.(title := edit.title);
      }
      if edit.description.Some? {
        d := d.(description := edit.description);
      }
      if edit.waiver.Some? {
        d := d.(waiverRequested := edit.waiver.value);
        if edit.waiver.value {
          e := e.(feeReviewAt := None);
        }
      }
      if edit.waiverReason.Some? {
        d := d.(waiverReason := edit.waiverReason);
      }
      SetEnvelope(f, e.(details := d));
      return Ok;
    }

    method PublishRevision(actor: Actor, court: nat, zone: CourtCalendars.Zone, from: int, through: int, closed: map<int, string>) returns (reply: Reply)
      requires Valid()
      modifies this
      ensures Valid() && Grows(old(Tables()), Tables())
      ensures (Tables(), reply) == PublishCalendar(old(Tables()), actor, court, zone, from, through, closed)
    {
      hide Inv, Grows, HeldOrRaised;
      CalendarKeeps(Tables(), actor, court, zone, from, through, closed);
      if court !in actor.administers && court !in actor.judgeOf {
        return Refused(403);
      }
      calendars := calendars + [CourtCalendars.Calendar(|calendars|, court, zone, from, through, closed)];
      return Ok;
    }

    // -------------------------------------------------------------- fee decisions and orders

    method AskFeeReview(actor: Actor, f: nat, expected: nat, reason: string, storage: Storage, now: Time) returns (reply: Reply)
      requires Valid()
      modifies this
      ensures Valid() && Grows(old(Tables()), Tables())
      ensures (Tables(), reply) == RequestFeeReview(old(Tables()), actor, f, expected, reason, storage, now)
    {
      hide Inv, Grows, HeldOrRaised;
      FeeReviewKeeps(Tables(), actor, f, expected, reason, storage, now);
      hide Current;
      if reason == "" {
        return Refused(422);
      }
      if !Owned(Tables(), actor, f) {
        return Refused(OwnerError(Tables(), actor, f));
      }
      var e, ids := envelopes[f], CurrentOf(Tables(), f);
      CurrentAre(docs, f, nextDoc);
      if !(Reviewable(e) && e.feeReviewAt.None?) || e.feeVersion != expected || !AllIntact(docs, ids, storage) {
        return Refused(409);
      }
      var manifest := Manifest(docs, ids);
      SetEnvelope(f, e.(feeVersion := e.feeVersion + 1, feeReviewAt := Some(now)));
      RetainDocuments(ids, now);
      RecordTransaction(f, FeeReviewRequested(reason, manifest), actor.id, now, None);
      return Ok;
    }

    method Assess(actor: Actor, f: nat, expected: nat, total: nat, authority: string, storage: Storage, now: Time) returns (reply: Reply)
      requires Valid()
      modifies this
      ensures Valid() && Grows(old(Tables()), Tables())
      ensures (Tables(), reply) == AssessFees(old(Tables()), actor, f, expected, total, authority, storage, now)
    {
      hide Inv, Grows, HeldOrRaised;
      AssessKeeps(Tables(), actor, f, expected, total, authority, storage, now);
      hide Current;
      if total > TOTAL_LIMIT {
        return Refused(422);
      }
      if f >= |envelopes| {
        return Refused(404);
      }
      if !IndependentStaff(Tables(), actor, f) {
        return Refused(403);
      }
      var e, ids := envelopes[f], CurrentOf(Tables(), f);
      CurrentAre(docs, f, nextDoc);
      if !Reviewable(e) || e.feeVersion != expected || !AllIntact(docs, ids, storage) {
        return Refused(409);
      }
      var assessed := FeeAssessed(expected + 1, total, authority, AssessmentOf(Tables(), f), Manifest(docs, ids));
      SetEnvelope(f, e.(feeVersion := e.feeVersion + 1, feeReviewAt := None));
      RetainDocuments(ids, now);
      RecordTransaction(f, assessed, actor.id, now, None);
      SetEnvelope(f, envelopes[f].(feeAssessment := Some(|txs| - 1)));
      assert envelopes == old(envelopes)[f := envelopes[f]];
      return Ok;
    }

    method Decide(actor: Actor, f: nat, expected: nat, action: WaiverAction, reason: string, due: Option<nat>,
                  order: Option<(string, File)>, now: Time) returns (reply: Reply)
      requires Valid()
      modifies this
      ensures Valid() && Grows(old(Tables()), Tables())
      ensures (Tables(), reply) == DecideWaiver(old(Tables()), actor, f, expected, action, reason, due, order, now)
    {
      hide Inv, Grows, HeldOrRaised;
      WaiveKeeps(Tables(), actor, f, expected, action, reason, due, order, now);
      if f >= |envelopes| {
        return Refused(404);
      }
      var e := envelopes[f];
      if e.court !in actor.staffOf {
        return Refused(403);
      }
      if !WaiverOpen(e) {
        return Refused(409);
      }
      if !MayDecide(e, actor, action) {
        return Refused(403);
      }
      if e.feeVersion != expected {
        return Refused(409);
      }
      if (action.DenyJudicial? && (reason == "" || due.None?)) || action.Refer? != order.None? {
        return Refused(400);
      }
      e := e.(feeVersion := e.feeVersion + 1, feeReviewAt := None);
      if action.Refer? {
        SetEnvelope(f, e.(waiverReferredAt := Some(now)));
        RecordTransaction(f, WaiverReferred, actor.id, now, None);
      } else {
        var doc := Doc(f, order.value.0, order.value.1.(docType := FeeWaiverOrder), now, true, Some(now), None, 0, None);
        var id := AddDocument(doc);
        var granted := !action.DenyJudicial?;
        var owed := if granted then 0 else due.value;
        SetEnvelope(f, e.(waiverGranted := Some(granted), waiverDue := Some(owed)));
        RecordTransaction(f, WaiverDecided(granted, owed, [EntryOf(id, doc)]), actor.id, now, None);
      }
      return Ok;
    }

    method OrderDate(actor: Actor, f: nat, expected: nat, order: DateOrder, objectKey: string, file: File, now: Time) returns (reply: Reply)
      requires Valid()
      modifies this
      ensures Valid() && Grows(old(Tables()), Tables())
      ensures (Tables(), reply) == RecordDateOrder(old(Tables()), actor, f, expected, order, objectKey, file, now)
    {
      hide Inv, Grows, HeldOrRaised;
      OrderKeeps(Tables(), actor, f, expected, order, objectKey, file, now);
      if order.authority == "" || order.reason == "" {
        return Refused(422);
      }
      if f >= |envelopes| {
        return Refused(404);
      }
      if !IndependentStaff(Tables(), actor, f) {
        return Refused(403);
      }
      var e := envelopes[f];
      if e.filingType.ServiceOnly? || e.status.Served? || e.status.Draft? || e.dateVersion != expected {
        return Refused(409);
      }
      if order.caseVersion.Some? {
        if e.case_.None? || e.case_.value >= |cases| || cases[e.case_.value].court != e.court
           || cases[e.case_.value].dateVersion != order.caseVersion.value {
          return Refused(409);
        }
        var c := cases[e.case_.value];
        cases := cases[e.case_.value := c.(filingDate := Some(order.date), dateVersion := c.dateVersion + 1)];
      }
      var doc := Doc(f, objectKey, file.(docType := FilingDateOrder), now, true, Some(now), None, 0, None);
      var id := AddDocument(doc);
      var basis := CourtOrder(order.date, id, order.signed, order.authority, e.submissions);
      SetEnvelope(f, e.(filingDate := Some(order.date), basis := Some(basis), dateVersion := e.dateVersion + 1));
      RecordTransaction(f, DateOrdered(e.filingDate, e.basis, basis, [EntryOf(id, doc)]), actor.id, now, None);
      return Ok;
    }

    // -------------------------------------------------------------- public copies

    method Prepare(actor: Actor, id: nat, key: string, title: string, sha: Sha, size: nat) returns (reply: Reply)
      requires Valid()
      modifies this
      ensures Valid() && Grows(old(Tables()), Tables())
      ensures (Tables(), reply) == PrepareCopy(old(Tables()), actor, id, key, title, sha, size)
    {
      hide Inv, Grows, HeldOrRaised;
      PrepareKeeps(Tables(), actor, id, key, title, sha, size);
      var blocked := DocumentError(Tables(), actor, id);
      if title == "" {
        return Refused(422);
      }
      if blocked.Some? {
        return Refused(blocked.value);
      }
      if PublicationBlocked(docs[id], envelopes[docs[id].envelope]) {
        return Refused(409);
      }
      copies := copies + [Copy(id, key, title, sha, size)];
      return Ok;
    }

    method PublishUnlocked(actor: Actor, id: nat, copyId: nat, expected: nat, storage: Storage) returns (reply: Reply)
      ensures reply == PublishProbe(Tables(), actor, id, copyId, expected, storage)
    {
      var blocked := DocumentError(Tables(), actor, id);
      if blocked.Some? {
        return Refused(blocked.value);
      }
      if docs[id].accessVersion != expected {
        return Refused(409);
      }
      if !(0 < copyId <= |copies|) || copies[copyId - 1].document != id {
        return Refused(404);
      }
      var c := copies[copyId - 1];
      if c.key !in storage {
        return Refused(409);
      }
      var (digest, size) := storage[c.key];
      return if digest != c.sha || size != c.size then Refused(409) else Ok;
    }

    method Publish(actor: Actor, id: nat, copyId: nat, expected: nat, now: Time) returns (reply: Reply)
      requires Valid()
      modifies this
      ensures Valid() && Grows(old(Tables()), Tables())
      ensures (Tables(), reply) == PublishCopy(old(Tables()), actor, id, copyId, expected, now)
    {
      hide Inv, Grows, HeldOrRaised;
      PublishKeeps(Tables(), actor, id, copyId, expected, now);
      var blocked := DocumentError(Tables(), actor, id);
      if blocked.Some? {
        return Refused(blocked.value);
      }
      if !(0 < copyId <= |copies|) || copies[copyId - 1].document != id {
        return Refused(404);
      }
      var d := docs[id];
      if PublicationBlocked(d, envelopes[d.envelope]) || d.accessVersion != expected {
        return Refused(409);
      }
      if d.publicCopy == Some(copyId) && d.confidential {
        return Ok;
      }
      var entry := CopyEntryOf(Tables(), copyId);
      docs := docs[id := d.(confidential := true, publicCopy := Some(copyId), accessVersion := expected + 1)];
      assert envelopes[d.envelope := envelopes[d.envelope]] == envelopes;
      RecordTransaction(d.envelope, CopyPublished(id, entry), actor.id, now, None);
      return Ok;
    }

    method Withhold(actor: Actor, id: nat, expected: nat, now: Time) returns (reply: Reply)
      requires Valid()
      modifies this
      ensures Valid() && Grows(old(Tables()), Tables())
      ensures (Tables(), reply) == WithholdDocument(old(Tables()), actor, id, expected, now)
    {
      hide Inv, Grows, HeldOrRaised;
      WithholdKeeps(Tables(), actor, id, expected, now);
      var blocked := DocumentError(Tables(), actor, id);
      if blocked.Some? {
        return Refused(blocked.value);
      }
      var d := docs[id];
      if d.accessVersion != expected || (envelopes[d.envelope].status.Draft? && d.retainedAt.None?) {
        return Refused(409);
      }
      if d.confidential && d.publicCopy.None? {
        return Ok;
      }
      docs := docs[id := d.(confidential := true, publicCopy := None, accessVersion := expected + 1)];
      assert envelopes[d.envelope := envelopes[d.envelope]] == envelopes;
      RecordTransaction(d.envelope, Withheld(id, d.publicCopy), actor.id, now, None);
      return Ok;
    }

    // -------------------------------------------------------------- payments

    method Pay(cfg: Config, actor: Actor, f: nat, expected: nat, amount: nat, now: Time) returns (reply: Reply)
      requires Valid()
      modifies this
      ensures Valid() && Grows(old(Tables()), Tables())
      ensures (Tables(), reply) == ProcessPayment(cfg, old(Tables()), actor, f, expected, amount, now)
    {
      hide Inv, Grows, HeldOrRaised;
      PayKeeps(cfg, Tables(), actor, f, expected, amount, now);
      hide Fees;
      if !Owned(Tables(), actor, f) {
        return Refused(OwnerError(Tables(), actor, f));
      }
      var e := envelopes[f];
      var fees := FeesOf(cfg, f);
      if e.feeVersion != expected || fees.balance.None? || !AwaitsPayment(e, fees) {
        return Refused(409);
      }
      if amount != fees.balance.value {
        return Refused(400);
      }
      if !cfg.simulatedPayments || !cfg.demo {
        return Refused(503);
      }
      payments := payments + [Payment(f, actor.id, amount, Completed, true, None)];
      SetEnvelope(f, e.(payment := Some(|payments| - 1), paymentVersion := e.paymentVersion + 1));
      RecordTransaction(f, PaymentRecorded(|payments| - 1, amount, true), actor.id, now, None);
      return Ok;
    }

    method Credit(cfg: Config, actor: Actor, key: Key, credit: CreditRequest, now: Time) returns (reply: Reply)
      requires credit.actor == actor.id
      requires Valid()
      modifies this
      ensures Valid() && Grows(old(Tables()), Tables())
      ensures (Tables(), reply) == RecordCredit(cfg, old(Tables()), actor, key, credit, now)
    {
      hide Inv, Grows, HeldOrRaised;
      CreditKeeps(cfg, Tables(), actor, key, credit, now);
      hide CreditError, FindCredit;
      var f := credit.filing;
      if !PaymentClerk(cfg, Tables(), actor, f) {
        return Refused(PaymentClerkError(cfg, Tables(), actor, f));
      }
      var found := FindCredit(payments, key);
      if found.Some? {
        return if payments[found.value].external.value.request == credit then Replayed else Refused(409);
      }
      var blocked := CreditError(cfg, Tables(), credit, now);
      if blocked.Some? {
        return Refused(blocked.value);
      }
      var e := envelopes[f];
      payments := payments + [Payment(f, e.filer, credit.amount, Completed, cfg.demo, Some(External(key, credit.receipt, credit)))];
      SetEnvelope(f, e.(payment := Some(|payments| - 1), paymentVersion := e.paymentVersion + 1));
      RecordTransaction(f, CreditRecorded(|payments| - 1, credit.amount, cfg.demo), actor.id, now, None);
      return Ok;
    }

    method Reverse(cfg: Config, actor: Actor, f: nat, p: nat, expected: nat, now: Time) returns (reply: Reply)
      requires Valid()
      modifies this
      ensures Valid() && Grows(old(Tables()), Tables())
      ensures (Tables(), reply) == ReverseCredit(cfg, old(Tables()), actor, f, p, expected, now)
    {
      hide Inv, Grows, HeldOrRaised;
      ReverseKeeps(cfg, Tables(), actor, f, p, expected, now);
      if !PaymentClerk(cfg, Tables(), actor, f) {
        return Refused(PaymentClerkError(cfg, Tables(), actor, f));
      }
      if p >= |payments| || payments[p].envelope != f || payments[p].external.None? {
        return Refused(404);
      }
      if payments[p].status.Reversed? {
        return Replayed;
      }
      if envelopes[f].paymentVersion != expected {
        return Refused(409);
      }
      payments := payments[p := payments[p].(status := Reversed)];
      SetEnvelope(f, envelopes[f].(paymentVersion := expected + 1));
      RecordTransaction(f, CreditReversed(p, payments[p].amount, payments[p].simulated), actor.id, now, None);
      return Ok;
    }

    // -------------------------------------------------------------- batch review

    method VerifyBatch(actor: Actor, sorted: seq<Item>, storage: Storage) returns (verified: seq<Evidence>, failed: seq<nat>)
      requires Valid()
      modifies this
      ensures Valid() && Grows(old(Tables()), Tables()) && forall k | 0 <= k < |verified| :: verified[k] in reviews
      ensures (Tables(), verified) == ProbeAll(old(Tables()), actor, sorted, storage)
      ensures SameIds(EvidenceIds(verified) + failed, ItemIds(sorted))
    {
      hide Inv, Grows, VerifyReview, SameIds, EvidenceIds, ItemIds;
      verified, failed := [], [];
      var k := 0;
      NoIds(sorted);
      while k < |sorted|
        invariant k <= |sorted| && Valid() && (Tables(), verified) == ProbeAll(old(Tables()), actor, sorted[..k], storage)
        invariant SameIds(EvidenceIds(verified) + failed, ItemIds(sorted[..k]))
      {
        assert sorted[..k + 1][..k] == sorted[..k];
        var reply, evidence := Verify(actor, sorted[k].filing, Accept, sorted[k].count, storage);
        ItemIdsNext(sorted, k);
        OneMoreId(EvidenceIds(verified), failed, ItemIds(sorted[..k]), sorted[k].filing);
        if evidence.Some? {
          EvidenceFor(old(Tables()), actor, sorted[..k], sorted[k], storage);
          EvidenceIdsNext(verified, evidence.value);
          verified := verified + [evidence.value];
        } else {
          failed := failed + [sorted[k].filing];
        }
        k := k + 1;
      }
      assert sorted[..k] == sorted;
      ProbeAllKeeps(old(Tables()), actor, sorted, storage);
    }

    method RecordBatch(cfg: Config, actor: Actor, verified: seq<Evidence>, outside: nat -> Outside, now: Time)
      returns (succeeded: seq<nat>, failed: seq<nat>)
      requires Valid() && OffsetsUnderADay(cfg) && forall k | 0 <= k < |verified| :: verified[k] in reviews
      modifies this
      ensures Valid() && Grows(old(Tables()), Tables())
      ensures (Tables(), succeeded) == RecordAll(cfg, old(Tables()), actor, verified, outside, now)
      ensures SameIds(succeeded + failed, EvidenceIds(verified))
    {
      hide Inv, Grows, RecordReview, SameIds, EvidenceIds, OffsetsUnderADay;
      succeeded, failed := [], [];
      var k := 0;
      NoEvidence(verified);
      while k < |verified|
        invariant k <= |verified| && Valid() && (Tables(), succeeded) == RecordAll(cfg, old(Tables()), actor, verified[..k], outside, now)
        invariant SameIds(succeeded + failed, EvidenceIds(verified[..k]))
      {
        assert verified[..k + 1][..k] == verified[..k] && verified[..k + 1] == verified[..k] + [verified[k]];
        EvidenceIdsNext(verified[..k], verified[k]);
        OneMoreId(succeeded, failed, EvidenceIds(verified[..k]), verified[k].filing);
        RecordAllKeeps(cfg, old(Tables()), actor, verified[..k], outside, now);
        EvidenceStays(old(Tables()), Tables(), verified[k]);
        var ev, accepted := verified[k], false;
        if ev.filing < |envelopes| {
          var o := outside(ev.filing);
          var reply := Record(cfg, actor, ev, "", o.place, o.cms, now);
          accepted := reply.Ok? && ev.filing < |envelopes| && envelopes[ev.filing].status.Accepted?;
        }
        if accepted {
          succeeded := succeeded + [ev.filing];
        } else {
          failed := failed + [ev.filing];
        }
        k := k + 1;
      }
      assert verified[..k] == verified;
      RecordAllKeeps(cfg, old(Tables()), actor, verified, outside, now);
    }

    /** Check every filing without a lock, then record each acceptance whose check passed. */
    method BatchReview(cfg: Config, actor: Actor, items: seq<Item>, storage: Storage, outside: nat -> Outside, now: Time)
      returns (succeeded: seq<nat>, failed: seq<nat>)
      requires Valid() && OffsetsUnderADay(cfg)
      modifies this
      ensures Valid() && Grows(old(Tables()), Tables())
      ensures var (probed, verified) := ProbeAll(old(Tables()), actor, InOrder(items), storage);
              (Tables(), succeeded) == RecordAll(cfg, probed, actor, verified, outside, now)
      ensures SameIds(succeeded + failed, ItemIds(items))
    {
      hide Inv, Grows, ProbeAll, RecordAll, SameIds, EvidenceIds, ItemIds, OffsetsUnderADay;
      var verified, refused := VerifyBatch(actor, InOrder(items), storage);
      ghost var probed := Tables();
      succeeded, failed := RecordBatch(cfg, actor, verified, outside, now);
      GrowsOn(old(Tables()), probed, Tables());
      InOrderIds(items);
      AllIds(succeeded, failed, refused, EvidenceIds(verified), ItemIds(InOrder(items)), ItemIds(items));
      failed := refused + failed;
    }
  }

  /** Real zones are less than a day from UTC. */
  ghost predicate OffsetsUnderADay(cfg: Config) {
    forall at: Time, z: CourtCalendars.Zone :: -CourtCalendars.SECONDS_PER_DAY < cfg.offsets(at)(z) < CourtCalendars.SECONDS_PER_DAY
  }

  /** An acceptance under a court-ordered date does not look at the calendars. */
  lemma OrderedIgnores(s: State, ev: Evidence, actor: Actor, a: CourtCalendars.Assessment, b: CourtCalendars.Assessment, cms: CmsResult, now: Time)
    requires ev.ordered && ev.filing < |s.envelopes| && OrElse(s.envelopes[ev.filing].filedAt, s.envelopes[ev.filing].submittedAt).Some?
    ensures Accepting(s, ev, actor, a, cms, now) == Accepting(s, ev, actor, b, cms, now)
  {
  }

  lemma SubmitOwner(cfg: Config, s: State, actor: Actor, f: nat, key: Option<Key>, token: SubmissionToken,
                    place: Option<Place>, participant: bool, required: bool)
    ensures SubmitCheck(cfg, s, actor, f, key, token, place, participant, required) == Ok ==> f < |s.envelopes|
  {
  }
}
