/**
 The notice email outbox: workers claim, send and finish attempts, a sweep recovers interrupted
 ones, and people requeue notices or report failed deliveries. A send happens outside any
 transaction, so a finish is a step of its own and may arrive after other steps.
 */
module EmailOutbox {
  import opened Common

  const MAX_AUTOMATIC_ATTEMPTS := 5
  const INTERRUPTED_AFTER := 600

  datatype Status = Disabled | Blocked | Pending | Sending | Sent | Unknown | Legacy | Failed | FailureReported

  /** What the relay made of a message: 250, a 4yz reply, a 5yz reply, or no confirmed reply. */
  datatype Outcome = Accepted | TemporaryFailure | PermanentFailure | Uncertain

  /** A delivery-failure report, as fingerprinted. */
  datatype Report = Report(message: nat, attempts: nat, observed: Time, description: string)

  /**
   One event of a notice, with its time. `human` marks a requeue by a person, `applied` a finish
   that changed the notice, and `Held` a queueing that could not be sent; these are history marks
   that the service does not store.
   */
  datatype Entry =
    | Queued(attempt: nat, human: bool, at: Time)
    | Held(enabled: bool)
    | Started(attempt: nat, at: Time)
    | StoppedAtClaim(attempt: nat, at: Time)
    | Finished(attempt: nat, outcome: Outcome, applied: bool, at: Time)
    | Recovered(attempt: nat, at: Time)
    | Reported(report: Report)

  datatype Event = Event(notice: nat, entry: Entry)

  datatype Notice = Notice(service: bool, status: Status, attempts: nat, nextAttempt: Option<Time>,
                           lastAttempt: Option<Time>, sentAt: Option<Time>, message: Option<nat>)

  /** An attempt a worker has started and not yet finished. */
  datatype Claim = Claim(notice: nat, attempt: nat)

  /** `reports` are the reports on record, by notice and request key. */
  datatype State = State(notices: map<nat, Notice>, events: seq<Event>, claims: set<Claim>, nextMessage: nat,
                         reports: map<(nat, nat), Report>)

  /** What the service finds out about a notice's recipient: the account and the delivery route. */
  datatype Check = Check(enabled: bool, deliverable: bool, routed: bool)

  // ---------------------------------------------------------------- one notice

  predicate Routable(n: Notice, check: Check) {
    check.enabled && (n.service ==> check.routed) && check.deliverable
  }

  /** Queueing renders the message and makes the notice due, or records why it cannot be sent. */
  function Requeued(n: Notice, check: Check, message: nat, now: Time): Notice {
    if !check.enabled then n.(status := Disabled)
    else if !Routable(n, check) then n.(status := Blocked)
    else n.(status := Pending, sentAt := None, nextAttempt := Some(now), message := Some(message))
  }

  function Claimed(n: Notice, ok: bool, now: Time): Notice {
    n.(status := if ok then Sending else Blocked, lastAttempt := Some(now), nextAttempt := None, attempts := n.attempts + 1)
  }

  predicate Applies(n: Notice, attempt: nat) {
    n.attempts == attempt && (n.status == Sending || n.status == Unknown)
  }

  function Pow2(n: nat): nat {
    if n == 0 then 1 else 2 * Pow2(n - 1)
  }

  function Concluded(n: Notice, outcome: Outcome, now: Time): Notice {
    match outcome
    case Accepted => n.(status := Sent, sentAt := Some(now))
    case Uncertain => n.(status := Unknown)
    case TemporaryFailure =>
      if n.attempts < MAX_AUTOMATIC_ATTEMPTS
      then n.(status := Pending, nextAttempt := Some(now + 60 * Pow2(n.attempts)))
      else n.(status := Failed)
    case PermanentFailure => n.(status := Failed)
  }

  predicate Interrupted(n: Notice, now: Time) {
    n.status == Sending && n.lastAttempt.Some? && n.lastAttempt.value <= now - INTERRUPTED_AFTER
  }

  // ---------------------------------------------------------------- the steps

  /** A new notice is stored and queued. */
  function Post(s: State, id: nat, service: bool, check: Check, now: Time): State
    requires id !in s.notices
  {
    var n := Notice(service, Disabled, 0, None, None, None, None);
    QueueStep(s.(notices := s.notices[id := n]), id, check, now, false)
  }

  function QueueEntry(n: Notice, check: Check, human: bool, now: Time): Entry {
    if Routable(n, check) then Queued(n.attempts + 1, human, now) else Held(check.enabled)
  }

  function QueueStep(s: State, id: nat, check: Check, now: Time, human: bool): State
    requires id in s.notices
  {
    var n := s.notices[id];
    State(s.notices[id := Requeued(n, check, s.nextMessage, now)], s.events + [Event(id, QueueEntry(n, check, human, now))],
          s.claims, s.nextMessage + 1, s.reports)
  }

  predicate Due(n: Notice, now: Time) {
    n.status == Pending && n.message.Some? && n.nextAttempt.Some? && n.nextAttempt.value <= now
  }

  predicate Earlier(s: State, a: nat, b: nat)
    requires a in s.notices && b in s.notices
    requires s.notices[a].nextAttempt.Some? && s.notices[b].nextAttempt.Some?
  {
    var x, y := s.notices[a].nextAttempt.value, s.notices[b].nextAttempt.value;
    x < y || (x == y && a <= b)
  }

  /** The longest-due notice that no other worker has locked. */
  predicate Candidate(s: State, id: nat, locked: set<nat>, now: Time) {
    && id in s.notices && id !in locked && Due(s.notices[id], now)
    && forall o | o in s.notices && o !in locked && Due(s.notices[o], now) :: Earlier(s, id, o)
  }

  function ClaimStep(s: State, id: nat, check: Check, now: Time): State
    requires id in s.notices
  {
    var n := s.notices[id];
    var ok := check.deliverable && (n.service ==> check.enabled && check.routed);
    var attempt := n.attempts + 1;
    State(s.notices[id := Claimed(n, ok, now)],
          s.events + [Event(id, if ok then Started(attempt, now) else StoppedAtClaim(attempt, now))],
          if ok then s.claims + {Claim(id, attempt)} else s.claims,
          s.nextMessage, s.reports)
  }

  function FinishStep(s: State, c: Claim, outcome: Outcome, now: Time): State {
    if c.notice !in s.notices then s.(claims := s.claims - {c})
    else
      var n := s.notices[c.notice];
      var applied := Applies(n, c.attempt);
      State(if applied then s.notices[c.notice := Concluded(n, outcome, now)] else s.notices,
            s.events + [Event(c.notice, Finished(c.attempt, outcome, applied, now))],
            s.claims - {c}, s.nextMessage, s.reports)
  }

  function Swept(notices: map<nat, Notice>, now: Time): map<nat, Notice> {
    map id | id in notices :: if Interrupted(notices[id], now) then notices[id].(status := Unknown) else notices[id]
  }

  function InterruptedIds(notices: map<nat, Notice>, now: Time): set<nat> {
    set id | id in notices && Interrupted(notices[id], now)
  }

  /** The sweep marks every interrupted attempt uncertain, one event each, in no fixed order. */
  ghost predicate RecoverStep(s: State, t: State, now: Time) {
    && t.notices == Swept(s.notices, now) && t.claims == s.claims && t.nextMessage == s.nextMessage && t.reports == s.reports
    && forall id :: History(t.events, id) == History(s.events, id) + SweepEntries(s.notices, id, now)
  }

  function SweepEntries(notices: map<nat, Notice>, id: nat, now: Time): seq<Entry> {
    if id in notices && Interrupted(notices[id], now) then [Recovered(notices[id].attempts, now)] else []
  }

  /** May this person requeue the notice now? The two endpoints differ in `service`. */
  predicate MayRetry(n: Notice, staff: bool, check: Check) {
    && check.enabled
    && (n.status in {Blocked, Disabled, Failed} || (staff && n.status in {Unknown, Legacy})
        || (n.service && staff && n.status == FailureReported))
    && if n.service then check.routed else Routable(n, check)
  }

  predicate MayReport(n: Notice, report: Report, now: Time) {
    && n.service && n.message == Some(report.message) && n.attempts == report.attempts
    && n.status in {Sent, Unknown, FailureReported}
    && n.lastAttempt.Some? && n.lastAttempt.value <= report.observed <= now
  }

  function ReportStep(s: State, id: nat, key: nat, report: Report): State
    requires id in s.notices
  {
    s.(notices := s.notices[id := s.notices[id].(status := FailureReported, nextAttempt := None)], reports := s.reports[(id, key) := report],
       events := s.events + [Event(id, Reported(report))])
  }

  ghost predicate Step(s: State, t: State) {
    || (exists id, service, check, now :: id !in s.notices && t == Post(s, id, service, check, now))
    || (exists id, locked, check, now :: Candidate(s, id, locked, now) && t == ClaimStep(s, id, check, now))
    || (exists c, outcome, now :: c in s.claims && t == FinishStep(s, c, outcome, now))
    || (exists now :: RecoverStep(s, t, now))
    || (exists id, staff, check, now :: id in s.notices && MayRetry(s.notices[id], staff, check) && t == QueueStep(s, id, check, now, true))
    || (exists id, key: nat, report, now ::
          id in s.notices && (id, key) !in s.reports && MayReport(s.notices[id], report, now) && t == ReportStep(s, id, key, report))
  }

  // ---------------------------------------------------------------- histories

  /** The events of one notice, in order. */
  function History(events: seq<Event>, id: nat): seq<Entry> {
    if events == [] then []
    else
      var rest, e := History(events[..|events| - 1], id), events[|events| - 1];
      if e.notice == id then rest + [e.entry] else rest
  }

  lemma {:induction false} HistoryAppend(events: seq<Event>, more: seq<Event>, id: nat)
    ensures History(events + more, id) == History(events, id) + History(more, id)
  {
    if more == [] {
      assert events + more == events;
    } else {
      HistoryAppend(events, more[..|more| - 1], id);
      assert (events + more)[..|events + more| - 1] == events + more[..|more| - 1];
    }
  }

  lemma HistoryOne(events: seq<Event>, e: Event, id: nat)
    ensures History(events + [e], id) == History(events, id) + if e.notice == id then [e.entry] else []
  {
    assert (events + [e])[..|events|] == events;
  }

  predicate IsClaim(e: Entry) {
    e.Started? || e.StoppedAtClaim?
  }

  function ClaimNumbers(h: seq<Entry>): seq<nat> {
    if h == [] then []
    else
      var rest, e := ClaimNumbers(h[..|h| - 1]), h[|h| - 1];
      if IsClaim(e) then rest + [e.attempt] else rest
  }

  function Requeues(h: seq<Entry>): nat {
    if h == [] then 0
    else Requeues(h[..|h| - 1]) + if h[|h| - 1].Queued? && h[|h| - 1].human then 1 else 0
  }

  /** Attempt `n` ended in an applied temporary failure with automatic attempts left. */
  predicate RetriesItself(e: Entry, n: nat) {
    e.Finished? && e.attempt == n && e.outcome == TemporaryFailure && e.applied && n < MAX_AUTOMATIC_ATTEMPTS
  }

  /** Something since the last claim entitles the notice to another attempt after attempt `n`. */
  predicate Permitted(h: seq<Entry>, n: nat) {
    h != [] && var e := h[|h| - 1];
    if IsClaim(e) then false
    else if e.Queued? || RetriesItself(e, n) then true
    else Permitted(h[..|h| - 1], n)
  }

  ghost predicate Justified(h: seq<Entry>) {
    forall k | 0 <= k < |h| && IsClaim(h[k]) :: h[k].attempt >= 1 && Permitted(h[..k], h[k].attempt - 1)
  }

  ghost predicate FinishedOnce(h: seq<Entry>) {
    forall i, j | 0 <= i < j < |h| && h[i].Finished? && h[j].Finished? :: h[i].attempt != h[j].attempt
  }

  // ---------------------------------------------------------------- what the history says of a notice

  /** Every entry but a late finish decides what becomes of the notice. */
  predicate Decides(e: Entry) {
    e.Finished? ==> e.applied
  }

  /** The last entry that decides. */
  function LastWord(h: seq<Entry>): Option<Entry> {
    if h == [] then None else if Decides(h[|h| - 1]) then Some(h[|h| - 1]) else LastWord(h[..|h| - 1])
  }

  function LastClaimAt(h: seq<Entry>): Option<Time> {
    if h == [] then None else if IsClaim(h[|h| - 1]) then Some(h[|h| - 1].at) else LastClaimAt(h[..|h| - 1])
  }

  /** Seconds to wait after attempt `n` failed temporarily. */
  const WAITS := [0, 120, 240, 480, 960]

  /** What a notice is after its last deciding entry. */
  predicate Says(e: Entry, n: Notice) {
    match e
    case Queued(_, _, at) => n.status == Pending && n.nextAttempt == Some(at) && n.sentAt.None?
    case Held(enabled) => n.status == if enabled then Blocked else Disabled
    case Started(attempt, at) => n.status == Sending && n.attempts == attempt
    case StoppedAtClaim(attempt, at) => n.status == Blocked && n.attempts == attempt
    case Recovered(attempt, _) => n.status == Unknown && n.attempts == attempt
    case Reported(_) => n.status == FailureReported
    case Finished(attempt, outcome, _, at) =>
      && n.attempts == attempt && attempt >= 1
      && match outcome
         case Accepted => n.status == Sent && n.sentAt == Some(at)
         case Uncertain => n.status == Unknown
         case PermanentFailure => n.status == Failed
         case TemporaryFailure =>
           if 1 <= attempt < 5 then n.status == Pending && n.nextAttempt == Some(at + WAITS[attempt]) else n.status == Failed
  }

  /** The notice is what its history says. */
  ghost predicate Told(n: Notice, h: seq<Entry>) {
    && (LastWord(h).None? ==> h == [] && n.status == Disabled)
    && (LastWord(h).Some? ==> Says(LastWord(h).value, n))
    && n.lastAttempt == LastClaimAt(h)
    && (n.status == Sending ==> n.attempts >= 1) && (n.status == Unknown ==> n.attempts >= 1)
  }

  // ---------------------------------------------------------------- the invariant

  ghost predicate NoticeInv(n: Notice, h: seq<Entry>) {
    && (n.status == Pending <==> n.nextAttempt.Some?)
    && (n.status == Pending <==> Permitted(h, n.attempts))
    && ClaimNumbers(h) == seq(n.attempts, i => i + 1)
    && n.attempts + (if n.status == Pending then 1 else 0) <= MAX_AUTOMATIC_ATTEMPTS + Requeues(h)
    && Justified(h)
    && (forall j | 0 <= j < |h| :: h[j].Queued? && !h[j].human ==> j == 0)
    && FinishedOnce(h)
    && (forall e | e in h :: e.Finished? ==> e.attempt <= n.attempts)
    && Told(n, h)
  }

  ghost predicate ClaimInv(s: State, c: Claim) {
    && c.notice in s.notices && 1 <= c.attempt <= s.notices[c.notice].attempts
    && (exists e | e in History(s.events, c.notice) :: e.Started? && e.attempt == c.attempt)
    && forall e | e in History(s.events, c.notice) :: e.Finished? ==> e.attempt != c.attempt
  }

  ghost predicate Inv(s: State) {
    && (forall id | id in s.notices :: NoticeInv(s.notices[id], History(s.events, id)))
    && (forall id | id !in s.notices :: History(s.events, id) == [])
    && (forall c | c in s.claims :: ClaimInv(s, c))
  }

  lemma Extend(h: seq<Entry>, e: Entry, n: nat)
    ensures ClaimNumbers(h + [e]) == ClaimNumbers(h) + if IsClaim(e) then [e.attempt] else []
    ensures Requeues(h + [e]) == Requeues(h) + if e.Queued? && e.human then 1 else 0
    ensures Permitted(h + [e], n) <==>
      !IsClaim(e) && (e.Queued? || RetriesItself(e, n) || Permitted(h, n))
    ensures LastWord(h + [e]) == (if Decides(e) then Some(e) else LastWord(h)) && LastClaimAt(h + [e]) == if IsClaim(e) then Some(e.at) else LastClaimAt(h)
    ensures Justified(h) && (IsClaim(e) ==> e.attempt >= 1 && Permitted(h, e.attempt - 1)) ==> Justified(h + [e])
  {
    assert (h + [e])[..|h|] == h;
    if Justified(h) && (IsClaim(e) ==> e.attempt >= 1 && Permitted(h, e.attempt - 1)) {
      forall k | 0 <= k < |h + [e]| && IsClaim((h + [e])[k])
        ensures (h + [e])[k].attempt >= 1 && Permitted((h + [e])[..k], (h + [e])[k].attempt - 1)
      {
        assert k < |h| ==> (h + [e])[..k] == h[..k];
      }
    }
  }

  // ---------------------------------------------------------------- preservation, one notice at a time

  lemma NewNotice(service: bool)
    ensures NoticeInv(Notice(service, Disabled, 0, None, None, None, None), [])
  {
  }

  lemma FinishesSoFar(n: Notice, h: seq<Entry>)
    requires NoticeInv(n, h)
    ensures forall e | e in h :: e.Finished? ==> e.attempt <= n.attempts
  {
  }

  lemma QueueKeeps(n: Notice, h: seq<Entry>, check: Check, message: nat, now: Time, human: bool)
    requires NoticeInv(n, h) && n.status != Pending
    requires human || (h == [] && n.attempts == 0)
    ensures NoticeInv(Requeued(n, check, message, now),
                      h + [QueueEntry(n, check, human, now)])
  {
    Extend(h, QueueEntry(n, check, human, now), n.attempts);
  }

  lemma ClaimKeeps(n: Notice, h: seq<Entry>, ok: bool, now: Time)
    requires NoticeInv(n, h) && n.status == Pending
    ensures NoticeInv(Claimed(n, ok, now), h + [if ok then Started(n.attempts + 1, now) else StoppedAtClaim(n.attempts + 1, now)])
  {
    var e := if ok then Started(n.attempts + 1, now) else StoppedAtClaim(n.attempts + 1, now);
    Extend(h, e, n.attempts + 1);
  }

  lemma FinishKeeps(n: Notice, h: seq<Entry>, attempt: nat, outcome: Outcome, now: Time)
    requires NoticeInv(n, h) && 1 <= attempt <= n.attempts
    requires forall e | e in h :: e.Finished? ==> e.attempt != attempt
    ensures NoticeInv(if Applies(n, attempt) then Concluded(n, outcome, now) else n,
                      h + [Finished(attempt, outcome, Applies(n, attempt), now)])
  {
    Extend(h, Finished(attempt, outcome, Applies(n, attempt), now), n.attempts);
    Waits(n.attempts, now);
  }

  /** The wait doubles with each attempt, from two minutes. */
  lemma Waits(n: nat, at: Time)
    ensures 1 <= n < MAX_AUTOMATIC_ATTEMPTS ==> at + 60 * Pow2(n) == at + WAITS[n]
  {
    assert Pow2(1) == 2 && Pow2(2) == 4 && Pow2(3) == 8 && Pow2(4) == 16;
  }

  lemma SweepKeeps(n: Notice, h: seq<Entry>, now: Time)
    requires NoticeInv(n, h)
    ensures Interrupted(n, now) ==> NoticeInv(n.(status := Unknown), h + [Recovered(n.attempts, now)])
  {
    if Interrupted(n, now) {
      Extend(h, Recovered(n.attempts, now), n.attempts);
    }
  }

  lemma ReportKeeps(n: Notice, h: seq<Entry>, report: Report)
    requires NoticeInv(n, h) && n.status in {Sent, Unknown, FailureReported}
    ensures NoticeInv(n.(status := FailureReported, nextAttempt := None), h + [Reported(report)])
  {
    Extend(h, Reported(report), n.attempts);
  }

  // ---------------------------------------------------------------- preservation, every step

  /** A step that touches one notice keeps the invariant if it keeps that notice's and its claims'. */
  lemma OneNotice(s: State, t: State, id: nat, more: seq<Event>)
    requires Inv(s) && t.events == s.events + more
    requires forall e | e in more :: e.notice == id
    requires t.notices.Keys == s.notices.Keys + {id} && forall o | o in s.notices && o != id :: t.notices[o] == s.notices[o]
    requires NoticeInv(t.notices[id], History(s.events, id) + History(more, id))
    requires forall c | c in t.claims :: if c.notice == id then ClaimInv(t, c) else c in s.claims
    ensures Inv(t)
  {
    hide NoticeInv;
    forall o ensures History(t.events, o) == if o == id then History(s.events, id) + History(more, id) else History(s.events, o) {
      HistoryAppend(s.events, more, o);
      if o != id {
        Unmentioned(more, o);
        assert History(s.events, o) + [] == History(s.events, o);
      }
    }
    forall o | o in t.notices ensures NoticeInv(t.notices[o], History(t.events, o)) {
      assert o != id ==> o in s.notices;
    }
    forall c | c in t.claims ensures ClaimInv(t, c) {
      if c.notice != id {
        assert ClaimInv(s, c);
        assert History(t.events, c.notice) == History(s.events, c.notice);
      }
    }
  }

  lemma {:induction false} Unmentioned(events: seq<Event>, id: nat)
    requires forall e | e in events :: e.notice != id
    ensures History(events, id) == []
  {
    if events != [] {
      Unmentioned(events[..|events| - 1], id);
    }
  }

  lemma OneEvent(e: Event)
    ensures History([e], e.notice) == [e.entry]
  {
    HistoryOne([], e, e.notice);
    assert [] + [e] == [e];
  }

  /** The claims of one notice survive a step that adds no finish for them. */
  lemma ClaimsKept(s: State, t: State, id: nat, more: seq<Event>)
    requires Inv(s) && t.events == s.events + more && id in t.notices
    requires id in s.notices ==> t.notices[id].attempts >= s.notices[id].attempts
    requires forall e | e in more :: e.notice == id && !e.entry.Finished?
    ensures forall c | c in s.claims && c.notice == id :: ClaimInv(t, c)
  {
    HistoryAppend(s.events, more, id);
    NoFinishIn(more, id);
    forall c | c in s.claims && c.notice == id ensures ClaimInv(t, c) {
      assert ClaimInv(s, c);
      var e :| e in History(s.events, id) && e.Started? && e.attempt == c.attempt;
      assert e in History(t.events, id);
    }
  }

  lemma {:induction false} NoFinishIn(more: seq<Event>, id: nat)
    requires forall e | e in more :: !e.entry.Finished?
    ensures forall e | e in History(more, id) :: !e.Finished?
  {
    if more != [] {
      NoFinishIn(more[..|more| - 1], id);
    }
  }

  lemma QueueStepKeeps(s: State, id: nat, check: Check, now: Time, human: bool)
    requires Inv(s) && id in s.notices && s.notices[id].status != Pending
    requires human || (History(s.events, id) == [] && s.notices[id].attempts == 0)
    ensures Inv(QueueStep(s, id, check, now, human))
  {
    hide NoticeInv;
    var n := s.notices[id];
    var t := QueueStep(s, id, check, now, human);
    var e := Event(id, QueueEntry(n, check, human, now));
    QueueKeeps(n, History(s.events, id), check, s.nextMessage, now, human);
    OneEvent(e);
    ClaimsKept(s, t, id, [e]);
    OneNotice(s, t, id, [e]);
  }

  lemma PostKeeps(s: State, id: nat, service: bool, check: Check, now: Time)
    requires Inv(s) && id !in s.notices
    ensures Inv(Post(s, id, service, check, now))
  {
    hide NoticeInv;
    var posted := s.(notices := s.notices[id := Notice(service, Disabled, 0, None, None, None, None)]);
    assert s.events + [] == s.events;
    assert Inv(posted) by {
      NewNotice(service);
      forall c | c in s.claims ensures ClaimInv(posted, c) { assert ClaimInv(s, c); }
    }
    QueueStepKeeps(posted, id, check, now, false);
  }

  lemma ClaimStepKeeps(s: State, id: nat, check: Check, now: Time)
    requires Inv(s) && id in s.notices && s.notices[id].status == Pending
    ensures Inv(ClaimStep(s, id, check, now))
  {
    hide NoticeInv;
    var n := s.notices[id];
    var t := ClaimStep(s, id, check, now);
    var e := t.events[|s.events|];
    var h := History(s.events, id);
    FinishesSoFar(n, h);
    ClaimKeeps(n, h, e.entry.Started?, now);
    OneEvent(e);
    ClaimsKept(s, t, id, [e]);
    forall c | c in t.claims && c.notice == id ensures ClaimInv(t, c) {
      if c !in s.claims {
        HistoryOne(s.events, e, id);
        assert History(t.events, id)[|h|] == Started(n.attempts + 1, now);
      }
    }
    OneNotice(s, t, id, [e]);
  }

  lemma FinishStepKeeps(s: State, c: Claim, outcome: Outcome, now: Time)
    requires Inv(s) && c in s.claims
    ensures Inv(FinishStep(s, c, outcome, now))
  {
    hide NoticeInv;
    assert ClaimInv(s, c);
    var n := s.notices[c.notice];
    var t := FinishStep(s, c, outcome, now);
    var e := Event(c.notice, Finished(c.attempt, outcome, Applies(n, c.attempt), now));
    FinishKeeps(n, History(s.events, c.notice), c.attempt, outcome, now);
    OneEvent(e);
    HistoryOne(s.events, e, c.notice);
    forall d | d in t.claims && d.notice == c.notice ensures ClaimInv(t, d) {
      assert ClaimInv(s, d);
      assert d.attempt != c.attempt;
    }
    OneNotice(s, t, c.notice, [e]);
  }

  lemma RecoverStepKeeps(s: State, t: State, now: Time)
    requires Inv(s) && RecoverStep(s, t, now)
    ensures Inv(t)
  {
    hide NoticeInv;
    forall id | id in t.notices ensures NoticeInv(t.notices[id], History(t.events, id)) {
      SweepKeeps(s.notices[id], History(s.events, id), now);
      assert History(s.events, id) + [] == History(s.events, id);
    }
    forall c | c in t.claims ensures ClaimInv(t, c) {
      assert ClaimInv(s, c);
      var e :| e in History(s.events, c.notice) && e.Started? && e.attempt == c.attempt;
      assert e in History(t.events, c.notice);
    }
  }

  lemma ReportStepKeeps(s: State, id: nat, key: nat, report: Report)
    requires Inv(s) && id in s.notices && s.notices[id].status in {Sent, Unknown, FailureReported}
    ensures Inv(ReportStep(s, id, key, report))
  {
    hide NoticeInv;
    var t, e := ReportStep(s, id, key, report), Event(id, Reported(report));
    ReportKeeps(s.notices[id], History(s.events, id), report);
    OneEvent(e);
    ClaimsKept(s, t, id, [e]);
    OneNotice(s, t, id, [e]);
  }

  lemma StepKeeps(s: State, t: State)
    requires Inv(s) && Step(s, t)
    ensures Inv(t)
  {
    hide Inv;
    if id, service, check, now :| id !in s.notices && t == Post(s, id, service, check, now) {
      PostKeeps(s, id, service, check, now);
    } else if id, locked, check, now :| Candidate(s, id, locked, now) && t == ClaimStep(s, id, check, now) {
      ClaimStepKeeps(s, id, check, now);
    } else if c, outcome, now :| c in s.claims && t == FinishStep(s, c, outcome, now) {
      FinishStepKeeps(s, c, outcome, now);
    } else if now :| RecoverStep(s, t, now) {
      RecoverStepKeeps(s, t, now);
    } else if id, staff, check, now :| id in s.notices && MayRetry(s.notices[id], staff, check) && t == QueueStep(s, id, check, now, true) {
      QueueStepKeeps(s, id, check, now, true);
    } else {
      var id, key: nat, report, now :|
        id in s.notices && (id, key) !in s.reports && MayReport(s.notices[id], report, now) && t == ReportStep(s, id, key, report);
      ReportStepKeeps(s, id, key, report);
    }
  }

  // ---------------------------------------------------------------- whole runs

  ghost predicate Run(r: seq<State>) {
    && r != [] && r[0] == State(map[], [], {}, 0, map[])
    && forall i | 0 <= i < |r| - 1 :: Step(r[i], r[i + 1])
  }

  lemma {:induction false} RunInv(r: seq<State>, i: nat)
    requires Run(r) && i < |r|
    ensures Inv(r[i])
  {
    if i > 0 {
      RunInv(r, i - 1);
      StepKeeps(r[i - 1], r[i]);
    }
  }

  /** A person put the notice back in the queue between the two positions. */
  ghost predicate RequeuedBetween(h: seq<Entry>, i: nat, k: nat) {
    exists j | i < j < k && j < |h| :: h[j].Queued? && h[j].human
  }

  lemma {:induction false} PermitSince(h: seq<Entry>, n: nat, i: nat) returns (j: nat)
    requires Permitted(h, n) && i < |h| && IsClaim(h[i])
    ensures i < j < |h| && (h[j].Queued? || RetriesItself(h[j], n))
  {
    var e := h[|h| - 1];
    if e.Queued? || RetriesItself(e, n) {
      j := |h| - 1;
    } else {
      j := PermitSince(h[..|h| - 1], n, i);
    }
  }

  /**
   In every interleaving, an attempt follows another only after that one's applied temporary
   failure, with automatic attempts left, or after a person requeued the notice in between.
   */
  lemma NextAttemptIsPermitted(r: seq<State>, x: nat, id: nat, i: nat, k: nat)
    requires Run(r) && x < |r|
    requires var h := History(r[x].events, id);
      i < k < |h| && IsClaim(h[i]) && IsClaim(h[k]) && h[k].attempt == h[i].attempt + 1
    ensures var h := History(r[x].events, id);
      RequeuedBetween(h, i, k) || exists j | i < j < k :: RetriesItself(h[j], h[i].attempt)
  {
    RunInv(r, x);
    var h := History(r[x].events, id);
    assert NoticeInv(r[x].notices[id], h);
    var j := PermitSince(h[..k], h[i].attempt, i);
    assert h[j] == h[..k][j];
  }

  /** Nothing is sent again by itself once a worker saw any result but a temporary failure. */
  lemma NoUnattendedResend(r: seq<State>, x: nat, id: nat, i: nat, k: nat, f: nat)
    requires Run(r) && x < |r|
    requires var h := History(r[x].events, id);
      && i < k < |h| && f < |h| && IsClaim(h[i]) && IsClaim(h[k]) && h[k].attempt == h[i].attempt + 1
      && h[f].Finished? && h[f].attempt == h[i].attempt && h[f].outcome != TemporaryFailure
    ensures RequeuedBetween(History(r[x].events, id), i, k)
  {
    RunInv(r, x);
    var h := History(r[x].events, id);
    NextAttemptIsPermitted(r, x, id, i, k);
    assert NoticeInv(r[x].notices[id], h);
  }

  lemma {:induction false} LastWordAt(h: seq<Entry>) returns (i: nat)
    requires LastWord(h).Some?
    ensures i < |h| && h[i] == LastWord(h).value && Decides(h[i]) && forall j | i < j < |h| :: h[j].Finished? && !h[j].applied
  {
    if Decides(h[|h| - 1]) {
      i := |h| - 1;
    } else {
      i := LastWordAt(h[..|h| - 1]);
    }
  }

  /**
   In every reachable state a notice is what the last deciding entry of its history says, entry `i`;
   whatever came after it is a late finish. Each status has its own reasons and no others, a sent
   notice carries the time of the relay's acceptance, and a retry waits 2, 4, 8 or 16 minutes.
   */
  lemma StatusFollowsHistory(r: seq<State>, x: nat, id: nat) returns (i: nat)
    requires Run(r) && x < |r| && id in r[x].notices && History(r[x].events, id) != []
    ensures var n, h := r[x].notices[id], History(r[x].events, id);
      && i < |h| && (forall j | i < j < |h| :: h[j].Finished? && !h[j].applied) && ReasonFor(h[i], n) && n.lastAttempt == LastClaimAt(h)
  {
    RunInv(r, x);
    var n, h := r[x].notices[id], History(r[x].events, id);
    assert NoticeInv(n, h);
    hide Run, NoticeInv, Says, ReasonFor;
    NoticeTold(n, h);
    i := LastWordAt(h);
    WordIsReason(h[i], n);
  }

  lemma NoticeTold(n: Notice, h: seq<Entry>)
    requires NoticeInv(n, h)
    ensures Told(n, h)
  {
  }

  lemma WordIsReason(e: Entry, n: Notice)
    requires Decides(e) && Says(e, n)
    ensures ReasonFor(e, n)
  {
  }

  /** The reason of each status, and the times that go with it. */
  ghost predicate ReasonFor(e: Entry, n: Notice) {
    && (n.status == Sent <==> e.Finished? && e.outcome == Accepted)
    && (n.status == Failed <==> e.Finished? && (e.outcome == PermanentFailure || (e.outcome == TemporaryFailure && e.attempt >= 5)))
    && (n.status == Unknown <==> e.Recovered? || (e.Finished? && e.outcome == Uncertain))
    && (n.status == Pending <==> e.Queued? || (e.Finished? && e.outcome == TemporaryFailure && e.attempt < 5))
    && (n.status == Sending <==> e.Started?)
    && (n.status == Blocked <==> e.StoppedAtClaim? || e == Held(true))
    && (n.status == FailureReported <==> e.Reported?)
    && (n.status == Sent ==> n.sentAt == Some(e.at) && n.attempts == e.attempt)
    && (n.status == Pending && e.Queued? ==> n.nextAttempt == Some(e.at))
    && (n.status == Pending && e.Finished? ==> 1 <= n.attempts == e.attempt <= 4 && n.nextAttempt == Some(e.at + [120, 240, 480, 960][e.attempt - 1]))
    && (n.status == Disabled <==> e == Held(false))
  }

  lemma {:induction false} LastClaimIs(h: seq<Entry>, i: nat)
    requires i < |h| && IsClaim(h[i]) && forall j | i < j < |h| :: !IsClaim(h[j])
    ensures ClaimNumbers(h) != [] && ClaimNumbers(h)[|ClaimNumbers(h)| - 1] == h[i].attempt
  {
    if i < |h| - 1 { LastClaimIs(h[..|h| - 1], i); }
  }

  /** The outcome of an attempt becomes the notice's status. */
  ghost predicate Effect(s: State, t: map<nat, Notice>, c: Claim, outcome: Outcome, now: Time)
    requires c.notice in s.notices
  {
    && c.notice in t && t == s.notices[c.notice := t[c.notice]] && c.attempt >= 1
    && var n := s.notices[c.notice];
       && (outcome == Accepted ==> t[c.notice] == n.(status := Sent, sentAt := Some(now)))
       && (outcome == Uncertain ==> t[c.notice] == n.(status := Unknown))
       && (outcome == PermanentFailure || (outcome == TemporaryFailure && c.attempt >= 5) ==> t[c.notice] == n.(status := Failed))
       && (outcome == TemporaryFailure && c.attempt < 5 ==>
             t[c.notice] == n.(status := Pending, nextAttempt := Some(now + [120, 240, 480, 960][c.attempt - 1])))
  }

  lemma CurrentAttempt(s: State, c: Claim, i: nat)
    requires Inv(s) && c in s.claims && c.notice in s.notices
    requires var h := History(s.events, c.notice);
      i < |h| && h[i].Started? && h[i].attempt == c.attempt && forall j | i < j < |h| :: h[j].Recovered?
    ensures Applies(s.notices[c.notice], c.attempt) && c.attempt >= 1
  {
    var n, h := s.notices[c.notice], History(s.events, c.notice);
    assert NoticeInv(n, h) && ClaimInv(s, c);
    hide Inv, ClaimInv;
    LastClaimIs(h, i);
    assert n.attempts == c.attempt;
    NoticeTold(n, h);
    hide NoticeInv;
    var k := LastWordAt(h);
  }

  /** While nothing but the sweep has come since its start, an attempt's finish decides: the outcome becomes the status. */
  lemma FinishTakesEffect(r: seq<State>, x: nat, c: Claim, i: nat, outcome: Outcome, now: Time)
    requires Run(r) && x < |r| && c in r[x].claims && c.notice in r[x].notices
    requires var h := History(r[x].events, c.notice);
      i < |h| && h[i].Started? && h[i].attempt == c.attempt && forall j | i < j < |h| :: h[j].Recovered?
    ensures Effect(r[x], FinishStep(r[x], c, outcome, now).notices, c, outcome, now)
  {
    RunInv(r, x);
    hide Run, Inv;
    CurrentAttempt(r[x], c, i);
    Waits(c.attempt, now);
  }

  /** Claim events carry the numbers 1..attempts once each, within the automatic allowance. */
  lemma AttemptNumbering(r: seq<State>, x: nat, id: nat)
    requires Run(r) && x < |r| && id in r[x].notices
    ensures var n, h := r[x].notices[id], History(r[x].events, id);
      && ClaimNumbers(h) == seq(n.attempts, i => i + 1)
      && n.attempts + (if n.status == Pending then 1 else 0) <= MAX_AUTOMATIC_ATTEMPTS + Requeues(h)
      && (n.status == Pending <==> n.nextAttempt.Some?)
  {
    RunInv(r, x);
  }

  lemma {:induction false} QueuedSincePermits(h: seq<Entry>, n: nat, j: nat)
    requires j < |h| && h[j].Queued? && forall k | j < k < |h| :: !IsClaim(h[k])
    ensures Permitted(h, n)
  {
    if j < |h| - 1 {
      QueuedSincePermits(h[..|h| - 1], n, j);
    }
  }

  lemma {:induction false} LastClaimNumber(h: seq<Entry>, k: nat)
    requires k < |h| && IsClaim(h[k])
    ensures h[k].attempt in ClaimNumbers(h)
  {
    if k < |h| - 1 {
      LastClaimNumber(h[..|h| - 1], k);
    }
  }

  /** After a newer claim, or a requeue since its start, an attempt's finish changes no notice. */
  lemma LateFinishIsInert(r: seq<State>, x: nat, c: Claim, i: nat, outcome: Outcome, now: Time)
    requires Run(r) && x < |r| && c in r[x].claims && c.notice in r[x].notices
    requires var h := History(r[x].events, c.notice); i < |h| && h[i].Started? && h[i].attempt == c.attempt
    requires var h := History(r[x].events, c.notice);
      || r[x].notices[c.notice].attempts != c.attempt
      || exists j | i < j < |h| :: h[j].Queued?
    ensures FinishStep(r[x], c, outcome, now).notices == r[x].notices
  {
    RunInv(r, x);
    var n, h := r[x].notices[c.notice], History(r[x].events, c.notice);
    assert NoticeInv(n, h);
    if n.attempts == c.attempt {
      var j :| i < j < |h| && h[j].Queued?;
      forall k | j < k < |h| ensures !IsClaim(h[k]) {
        if IsClaim(h[k]) { ClaimAfterIsNewer(h, i, k); LastClaimNumber(h, k); }
      }
      QueuedSincePermits(h, n.attempts, j);
    }
  }

  lemma {:induction false} ClaimAfterIsNewer(h: seq<Entry>, i: nat, k: nat)
    requires i < k < |h| && IsClaim(h[i]) && IsClaim(h[k])
    requires ClaimNumbers(h) == seq(|ClaimNumbers(h)|, j => j + 1)
    ensures h[i].attempt < h[k].attempt
  {
    var g, e := h[..|h| - 1], h[|h| - 1];
    if IsClaim(e) {
      assert ClaimNumbers(g) == ClaimNumbers(h)[..|ClaimNumbers(h)| - 1];
    }
    assert ClaimNumbers(g) == seq(|ClaimNumbers(g)|, j => j + 1);
    if k < |h| - 1 {
      ClaimAfterIsNewer(g, i, k);
    } else {
      LastClaimNumber(g, i);
      var x :| 0 <= x < |ClaimNumbers(g)| && ClaimNumbers(g)[x] == h[i].attempt;
      assert ClaimNumbers(h)[|ClaimNumbers(g)|] == h[k].attempt;
    }
  }

  // ---------------------------------------------------------------- the service

  lemma {:induction false} LongestDue(s: State, due: set<nat>) returns (id: nat)
    requires due != {} && forall o | o in due :: o in s.notices && s.notices[o].nextAttempt.Some?
    ensures id in due && forall o | o in due :: Earlier(s, id, o)
    decreases |due|
  {
    var x :| x in due;
    if due == {x} {
      id := x;
    } else {
      var y := LongestDue(s, due - {x});
      id := if Earlier(s, x, y) then x else y;
      forall o | o in due ensures Earlier(s, id, o) {
        assert o == x || Earlier(s, y, o);
      }
    }
  }

  datatype ReportReply = OnRecord | AlreadyReported | NotReported

  function ReportOn(s: State, id: nat, key: nat, report: Report, now: Time): (State, ReportReply) {
    if id !in s.notices || !s.notices[id].service then (s, NotReported)
    else if (id, key) in s.reports then (s, if s.reports[(id, key)] == report then AlreadyReported else NotReported)
    else if !MayReport(s.notices[id], report, now) then (s, NotReported)
    else (ReportStep(s, id, key, report), OnRecord)
  }

  /** Notices keep their kind and reports on record never change. */
  ghost predicate ReportsGrow(s: State, t: State) {
    && (forall id | id in s.notices :: id in t.notices && t.notices[id].service == s.notices[id].service)
    && (forall k | k in s.reports :: k in t.reports && t.reports[k] == s.reports[k])
  }

  lemma QueueReports(s: State, id: nat, check: Check, now: Time, human: bool)
    requires id in s.notices
    ensures ReportsGrow(s, QueueStep(s, id, check, now, human))
  {
  }

  lemma PostReports(s: State, id: nat, service: bool, check: Check, now: Time)
    requires id !in s.notices
    ensures ReportsGrow(s, Post(s, id, service, check, now))
  {
    var posted := s.(notices := s.notices[id := Notice(service, Disabled, 0, None, None, None, None)]);
    QueueReports(posted, id, check, now, false);
    hide QueueStep;
  }

  lemma ClaimReports(s: State, id: nat, check: Check, now: Time)
    requires id in s.notices
    ensures ReportsGrow(s, ClaimStep(s, id, check, now))
  {
  }

  lemma FinishReports(s: State, c: Claim, outcome: Outcome, now: Time)
    ensures ReportsGrow(s, FinishStep(s, c, outcome, now))
  {
  }

  lemma RecoverReports(s: State, t: State, now: Time)
    requires RecoverStep(s, t, now)
    ensures ReportsGrow(s, t)
  {
    hide History, SweepEntries;
  }

  lemma ReportsStep(s: State, t: State)
    requires Step(s, t)
    ensures ReportsGrow(s, t)
  {
    hide Post, QueueStep, ClaimStep, FinishStep, RecoverStep, MayRetry, MayReport, Earlier, Due;
    if id, service, check, now :| id !in s.notices && t == Post(s, id, service, check, now) {
      PostReports(s, id, service, check, now);
    } else if id, locked, check, now :| Candidate(s, id, locked, now) && t == ClaimStep(s, id, check, now) {
      ClaimReports(s, id, check, now);
    } else if c, outcome, now :| c in s.claims && t == FinishStep(s, c, outcome, now) {
      FinishReports(s, c, outcome, now);
    } else if now :| RecoverStep(s, t, now) {
      RecoverReports(s, t, now);
    } else if id, staff, check, now :| id in s.notices && MayRetry(s.notices[id], staff, check) && t == QueueStep(s, id, check, now, true) {
      QueueReports(s, id, check, now, true);
    }
  }

  lemma {:induction false} ReportsStay(r: seq<State>, i: nat, j: nat)
    requires Run(r) && i <= j < |r|
    ensures ReportsGrow(r[i], r[j])
  {
    hide Step, Inv;
    if i < j {
      ReportsStay(r, i, j - 1);
      ReportsStep(r[j - 1], r[j]);
    }
  }

  /** A report key has one effect: at any later state the same report replays, another is refused, and neither changes anything. */
  lemma ReportedOnce(r: seq<State>, i: nat, j: nat, id: nat, key: nat, report: Report, now: Time, again: Report, later: Time)
    requires Run(r) && i < j < |r| && ReportOn(r[i], id, key, report, now) == (r[i + 1], OnRecord)
    ensures ReportOn(r[j], id, key, again, later) == (r[j], if again == report then AlreadyReported else NotReported)
  {
    ReportsStay(r, i + 1, j);
  }

  class Outbox {
    var notices: map<nat, Notice>
    var events: seq<Event>
    var nextMessage: nat
    var reports: map<(nat, nat), Report>
    ghost var claims: set<Claim>

    ghost function Snapshot(): State
      reads this
    {
      State(notices, events, claims, nextMessage, reports)
    }

    constructor ()
      ensures Snapshot() == State(map[], [], {}, 0, map[])
    {
      notices, events, nextMessage, claims, reports := map[], [], 0, {}, map[];
    }

    method PostNotice(id: nat, service: bool, check: Check, now: Time)
      requires id !in notices
      modifies this
      ensures Snapshot() == Post(old(Snapshot()), id, service, check, now)
    {
      notices := notices[id := Notice(service, Disabled, 0, None, None, None, None)];
      QueueEmail(id, check, now, false);
    }

    method QueueEmail(id: nat, check: Check, now: Time, human: bool)
      requires id in notices
      modifies this
      ensures Snapshot() == QueueStep(old(Snapshot()), id, check, now, human)
      ensures id in notices && notices.Keys == old(notices).Keys
      ensures var was, n := old(notices)[id], notices[id];
        && n.attempts == was.attempts && n.service == was.service && n.lastAttempt == was.lastAttempt
        && (n.status == Disabled <==> !check.enabled)
        && (n.status == Blocked <==> check.enabled && (!check.deliverable || (was.service && !check.routed)))
        && (n.status == Pending <==> check.enabled && check.deliverable && (was.service ==> check.routed))
        && (n.status == Pending ==> n.nextAttempt == Some(now) && n.sentAt.None? && n.message == Some(old(nextMessage)))
    {
      var notice := notices[id];
      var message := nextMessage;
      nextMessage := nextMessage + 1;
      if !check.enabled {
        notices, events := notices[id := notice.(status := Disabled)], events + [Event(id, Held(false))];
        return;
      }
      if (notice.service && !check.routed) || !check.deliverable {
        notices, events := notices[id := notice.(status := Blocked)], events + [Event(id, Held(true))];
        return;
      }
      notice := notice.(message := Some(message), status := Pending);
      notice := notice.(sentAt := None, nextAttempt := Some(now));
      notices := notices[id := notice];
      events := events + [Event(id, Queued(notice.attempts + 1, human, now))];
    }

    /** Claims the longest-due notice no other worker holds; the send itself happens afterwards. */
    method ClaimEmail(locked: set<nat>, check: Check, now: Time) returns (claimed: Option<nat>)
      modifies this
      ensures claimed.Some? ==>
        && Candidate(old(Snapshot()), claimed.value, locked, now)
        && Snapshot() == ClaimStep(old(Snapshot()), claimed.value, check, now)
      ensures claimed.Some? ==>
        && claimed.value in old(notices) && claimed.value in notices && claimed.value !in locked
        && var was, n := old(notices)[claimed.value], notices[claimed.value];
           && was.status == Pending && was.nextAttempt.Some? && was.nextAttempt.value <= now && was.message.Some?
           && (forall o | o in old(notices) && o !in locked && old(notices)[o].status == Pending && old(notices)[o].message.Some?
                          && old(notices)[o].nextAttempt.Some? :: was.nextAttempt.value <= old(notices)[o].nextAttempt.value)
           && (n.status == Sending <==> check.deliverable && (n.service ==> check.enabled && check.routed)) && (n.status != Sending ==> n.status == Blocked)
           && n.attempts == was.attempts + 1 && n.lastAttempt == Some(now) && n.nextAttempt.None? && n.message == was.message && n.sentAt == was.sentAt
      ensures claimed.None? ==>
        && Snapshot() == old(Snapshot())
        && forall id | id in notices && id !in locked :: !Due(notices[id], now)
    {
      var due := set id | id in notices && id !in locked && Due(notices[id], now);
      if due == {} {
        assert forall id | id in notices && id !in locked && Due(notices[id], now) :: id in due;
        return None;
      }
      ghost var s := Snapshot();
      ghost var longest := LongestDue(s, due);
      var id :| id in due && forall o | o in due ::
        var x, y := notices[id].nextAttempt.value, notices[o].nextAttempt.value; x < y || (x == y && id <= o);
      assert Candidate(s, id, locked, now);
      var notice := notices[id].(status := Sending, lastAttempt := Some(now), nextAttempt := None,
                                 attempts := notices[id].attempts + 1);
      var entry := Started(notice.attempts, now);
      if !check.deliverable || (notice.service && !(check.enabled && check.routed)) {
        notice := notice.(status := Blocked);
        entry := StoppedAtClaim(notice.attempts, now);
      } else {
        claims := claims + {Claim(id, notice.attempts)};
      }
      notices := notices[id := notice];
      events := events + [Event(id, entry)];
      return Some(id);
    }

    /** Records a worker's result; only a current attempt that is sending or uncertain is changed. */
    method FinishAttempt(id: nat, attempt: nat, outcome: Outcome, now: Time)
      modifies this
      ensures Snapshot() == FinishStep(old(Snapshot()), Claim(id, attempt), outcome, now)
    {
      claims := claims - {Claim(id, attempt)};
      if id !in notices {
        return;
      }
      var current := notices[id];
      var applied := current.attempts == attempt && (current.status == Sending || current.status == Unknown);
      events := events + [Event(id, Finished(attempt, outcome, applied, now))];
      if !applied {
        return;
      }
      if outcome == Accepted {
        current := current.(status := Sent, sentAt := Some(now));
      } else if outcome == Uncertain {
        current := current.(status := Unknown);
      } else if outcome == TemporaryFailure && current.attempts < MAX_AUTOMATIC_ATTEMPTS {
        current := current.(status := Pending, nextAttempt := Some(now + 60 * Pow2(current.attempts)));
      } else {
        current := current.(status := Failed);
      }
      notices := notices[id := current];
    }

    method RecoverInterrupted(now: Time) returns (count: nat)
      modifies this
      ensures RecoverStep(old(Snapshot()), Snapshot(), now)
      ensures notices.Keys == old(notices).Keys
      ensures forall id | id in notices ::
                var was := old(notices)[id];
                notices[id] == if was.status == Sending && was.lastAttempt.Some? && now - was.lastAttempt.value >= 600 then was.(status := Unknown) else was
      ensures count == |InterruptedIds(old(notices), now)|
    {
      ghost var was := notices;
      var rows := InterruptedIds(notices, now);
      count := |rows|;
      notices := Swept(notices, now);
      ghost var due := rows;
      ghost var before := events;
      forall id ensures History(events, id) == History(before, id) + [] {
        assert History(before, id) + [] == History(before, id);
      }
      while rows != {}
        invariant rows <= due && notices == Swept(was, now)
        invariant claims == old(claims) && nextMessage == old(nextMessage) && reports == old(reports)
        invariant forall id ::
          History(events, id) == History(before, id) + if id in due && id !in rows then [Recovered(was[id].attempts, now)] else []
        decreases rows
      {
        var id :| id in rows;
        forall o ensures History(events + [Event(id, Recovered(notices[id].attempts, now))], o)
                      == History(events, o) + if o == id then [Recovered(was[id].attempts, now)] else []
        {
          HistoryOne(events, Event(id, Recovered(notices[id].attempts, now)), o);
        }
        events := events + [Event(id, Recovered(notices[id].attempts, now))];
        rows := rows - {id};
      }
    }

    /** A person asks for another attempt; refused unless the outcome allows it. */
    method RetryDelivery(id: nat, staff: bool, check: Check, now: Time) returns (queued: bool)
      modifies this
      ensures queued <==> id in old(notices) && MayRetry(old(notices)[id], staff, check)
      ensures queued ==> check.enabled && old(notices)[id].status !in {Pending, Sending, Sent}
      ensures queued && old(notices)[id].status in {Unknown, Legacy, FailureReported} ==> staff
      ensures id in old(notices) && check == Check(true, true, true) && (old(notices)[id].status in {Blocked, Disabled, Failed} || (staff && old(notices)[id].status == Unknown)) ==>
                queued && id in notices && notices[id].status == Pending && notices[id].nextAttempt == Some(now) && notices[id].attempts == old(notices)[id].attempts
      ensures Snapshot() == if queued then QueueStep(old(Snapshot()), id, check, now, true) else old(Snapshot())
    {
      if id !in notices || !check.enabled {
        return false;
      }
      var notice := notices[id];
      if notice.status == Pending || notice.status == Sending || notice.status == Sent
         || (notice.status == FailureReported && !notice.service) {
        return false;
      }
      if notice.status in {Unknown, Legacy, FailureReported} && !staff {
        return false;
      }
      if (notice.service && !check.routed) || (!notice.service && !check.deliverable) {
        return false;
      }
      QueueEmail(id, check, now, true);
      return true;
    }

    method ReportDeliveryFailure(id: nat, key: nat, report: Report, now: Time) returns (reply: ReportReply)
      modifies this
      ensures (Snapshot(), reply) == ReportOn(old(Snapshot()), id, key, report, now)
      ensures reply == OnRecord <==>
        && id in old(notices) && (id, key) !in old(reports)
        && var was := old(notices)[id];
           && was.service && was.message == Some(report.message) && was.attempts == report.attempts
           && was.status !in {Disabled, Blocked, Pending, Sending, Legacy, Failed}
           && was.lastAttempt.Some? && was.lastAttempt.value <= report.observed && report.observed <= now
      ensures reply == OnRecord ==> id in notices && notices[id].status == FailureReported && (id, key) in reports && reports[(id, key)] == report
    {
      if id !in notices || !notices[id].service {
        return NotReported;
      }
      if (id, key) in reports {
        return if reports[(id, key)] == report then AlreadyReported else NotReported;
      }
      var notice := notices[id];
      if notice.message != Some(report.message) || notice.attempts != report.attempts {
        return NotReported;
      }
      if notice.status != Sent && notice.status != Unknown && notice.status != FailureReported {
        return NotReported;
      }
      if report.observed > now || notice.lastAttempt.None? || report.observed < notice.lastAttempt.value {
        return NotReported;
      }
      notices := notices[id := notice.(status := FailureReported, nextAttempt := None)];
      reports := reports[(id, key) := report];
      events := events + [Event(id, Reported(report))];
      return OnRecord;
    }
  }
}
