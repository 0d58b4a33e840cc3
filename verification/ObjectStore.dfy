/**
 Stored objects and the rows that refer to them: uploads tracked by a request's session, rollback,
 commits whose outcome is unknown and may land late, and the queue that deletes the files of
 removed drafts. Other requests and cleanup workers may act between any two steps.
 */
module ObjectStore {
  import opened Common

  /** An object key; each upload makes a new one. */
  type Key = nat

  datatype Job = Job(key: Key, nextAttempt: Time, attempts: nat)

  datatype Phase =
    | Open
    | Failed                    // the handler raised, the session will be rolled back
    | Doubt(applied: bool)      // the commit raised, whether or not it took effect
    | Purging(left: set<Key>)   // deleting what no row was found to refer to
    | Done

  /** A commit that raised without effect is in limbo; it may still land, late if after its check. */
  datatype Fate = Plain | Limbo | Late

  /**
   `loose` uploads have no row yet. The last fields log where each upload went, which objects the
   session's own deletions removed, and whether a check could read the rows.
   */
  datatype Session = Session(phase: Phase, fate: Fate, staged: set<Key>, loose: set<Key>, removed: Option<Key>, uploads: set<Key>,
                             attempted: set<Key>, kept: set<Key>, referenced: set<Key>, purged: set<Key>, checked: bool)

  datatype Worker = Deleting(job: nat) | Deleted(job: nat, gone: bool)

  /** `dropped` keys had a row that a later commit removed. */
  datatype Store = Store(objects: set<Key>, rows: set<Key>, dropped: set<Key>, jobs: map<nat, Job>, nextJob: nat,
                         sessions: map<nat, Session>, workers: map<nat, Worker>, used: set<Key>)

  const EMPTY_STORE := Store({}, {}, {}, map[], 0, map[], map[], {})

  /** The keys a session may still delete. */
  function Held(x: Session): set<Key> {
    match x.phase
    case Open => x.staged + x.loose
    case Failed => x.staged + x.loose
    case Doubt(_) => x.staged
    case Purging(left) => left
    case Done => {}
  }

  /** The keys of a session that may still get their first row. */
  function Unborn(x: Session): set<Key> {
    if x.phase.Open? then x.staged + x.loose else if x.fate.Limbo? then x.staged else {}
  }

  // ---------------------------------------------------------------- steps

  datatype Step =
    | Begin(id: nat)
    | Upload(id: nat, key: Key)
    | Stage(id: nat, key: Key)
    | Release(id: nat, key: Key, gone: bool)
    | HandlerFails(id: nat, key: Key, gone: bool)
    | Raise(id: nat)
    | Remove(id: nat, key: Key)
    | Rollback(id: nat)
    | Commit(id: nat, now: Time)
    | CommitRaises(id: nat, applied: bool, now: Time)
    | Land(id: nat, now: Time)
    | Verify(id: nat, readable: bool)
    | Purge(id: nat, key: Key, gone: bool)
    | End(id: nat)
    | Claim(worker: nat, job: nat, now: Time)
    | Delete(worker: nat, gone: bool)
    | Finish(worker: nat, committed: bool, now: Time)

  predicate In(s: Store, id: nat, phase: Phase) {
    id in s.sessions && s.sessions[id].phase == phase
  }

  /** A job is worked on by one worker at a time. */
  predicate Claimed(s: Store, job: nat) {
    exists w | w in s.workers :: s.workers[w].job == job
  }

  predicate Enabled(s: Store, e: Step) {
    match e
    case Begin(id) => id !in s.sessions
    case Upload(id, key) => In(s, id, Open) && key !in s.used
    case Stage(id, key) => In(s, id, Open) && key in s.sessions[id].loose
    case Release(id, key, _) => In(s, id, Open) && key in s.sessions[id].loose
    case HandlerFails(id, key, _) => In(s, id, Open) && key in s.sessions[id].staged + s.sessions[id].loose
    case Raise(id) => In(s, id, Open)
    case Remove(id, key) => In(s, id, Open) && s.sessions[id].removed.None? && key in s.rows
    case Rollback(id) => In(s, id, Failed)
    // a handler returns only once each of its uploads has a row or was released
    case Commit(id, _) => In(s, id, Open) && s.sessions[id].loose == {}
    case CommitRaises(id, _, _) => In(s, id, Open) && s.sessions[id].loose == {}
    case Land(id, _) => id in s.sessions && s.sessions[id].fate.Limbo?
    case Verify(id, _) => id in s.sessions && s.sessions[id].phase.Doubt?
    case Purge(id, key, _) => id in s.sessions && s.sessions[id].phase.Purging? && key in s.sessions[id].phase.left
    case End(id) => In(s, id, Purging({}))
    case Claim(worker, job, now) => worker !in s.workers && job in s.jobs && !Claimed(s, job) && s.jobs[job].nextAttempt <= now
    case Delete(worker, _) => worker in s.workers && s.workers[worker].Deleting?
    case Finish(worker, _, _) => worker in s.workers && s.workers[worker].Deleted?
  }

  function Without(objects: set<Key>, key: Key, gone: bool): set<Key> {
    if gone then objects - {key} else objects
  }

  function SetSession(s: Store, id: nat, x: Session): Store {
    s.(sessions := s.sessions[id := x])
  }

  /** The session after it tried to delete one of its objects. */
  function Tried(x: Session, key: Key, gone: bool): Session {
    x.(attempted := x.attempted + {key}, purged := if gone then x.purged + {key} else x.purged)
  }

  /** What a commit writes, all at once: its rows, and the removal of a row with its deletion job. */
  function Written(s: Store, x: Session, now: Time): Store {
    if x.removed.Some? && x.removed.value in s.rows then
      s.(rows := s.rows - {x.removed.value} + x.staged, dropped := s.dropped + {x.removed.value},
         jobs := s.jobs[s.nextJob := Job(x.removed.value, now, 0)], nextJob := s.nextJob + 1)
    else s.(rows := s.rows + x.staged)
  }

  /** Seconds until the next attempt after the n-th failure. */
  function Delay(n: nat): nat {
    var shift := if n == 0 then 0 else if n - 1 < 7 then n - 1 else 7;
    if 30 * Power(shift) < 3600 then 30 * Power(shift) else 3600
  }

  function Power(n: nat): nat {
    if n == 0 then 1 else 2 * Power(n - 1)
  }

  function Deferred(j: Job, now: Time): Job {
    Job(j.key, now + Delay(j.attempts + 1), j.attempts + 1)
  }

  /** The acting session of a session's step afterwards. */
  function Moved(s: Store, x: Session, e: Step): Session {
    match e
    case Upload(_, key) => x.(loose := x.loose + {key}, uploads := x.uploads + {key})
    case Stage(_, key) => x.(loose := x.loose - {key}, staged := x.staged + {key})
    case Release(_, key, gone) =>
      if gone then Tried(x, key, gone).(loose := x.loose - {key}) else Tried(x, key, gone).(phase := Failed)
    case HandlerFails(_, key, gone) => Tried(x, key, gone).(phase := Failed)
    case Raise(_) => x.(phase := Failed)
    case Remove(_, key) => x.(removed := Some(key))
    case Rollback(_) => x.(phase := Purging(Held(x)))
    case Commit(_, _) => x.(phase := Done, referenced := x.referenced + x.staged)
    case CommitRaises(_, applied, _) => x.(phase := Doubt(applied), fate := if applied then Plain else Limbo)
    case Land(_, _) => if x.phase.Doubt? then x.(phase := Doubt(true), fate := Plain) else x.(fate := Late)
    case Verify(_, readable) =>
      if readable then x.(phase := Purging(x.staged - s.rows), referenced := x.referenced + x.staged * s.rows, checked := true)
      else x.(phase := Purging({}), kept := x.kept + x.staged)
    case Purge(_, key, gone) => Tried(x, key, gone).(phase := if x.phase.Purging? then Purging(x.phase.left - {key}) else x.phase)
    case End(_) => x.(phase := Done)
    case _ => x
  }

  /** Objects, rows and jobs after a session's step. */
  function World(s: Store, x: Session, e: Step): Store {
    match e
    case Upload(_, key) => s.(objects := s.objects + {key}, used := s.used + {key})
    case Release(_, key, gone) => s.(objects := Without(s.objects, key, gone))
    case HandlerFails(_, key, gone) => s.(objects := Without(s.objects, key, gone))
    case Purge(_, key, gone) => s.(objects := Without(s.objects, key, gone))
    case Commit(_, now) => Written(s, x, now)
    case CommitRaises(_, applied, now) => if applied then Written(s, x, now) else s
    case Land(_, now) => Written(s, x, now)
    case _ => s
  }

  const FIRST := Session(Open, Plain, {}, {}, None, {}, {}, {}, {}, {}, false)

  /** The session a step acts for, if any. */
  function ActingSession(e: Step): Option<nat> {
    match e
    case Claim(_, _, _) => None
    case Delete(_, _) => None
    case Finish(_, _, _) => None
    case _ => Some(e.id)
  }

  function Worked(s: Store, e: Step): Store
    requires Enabled(s, e) && ActingSession(e).None?
  {
    match e
    case Claim(worker, job, now) =>
      if s.jobs[job].key in s.rows then s.(jobs := s.jobs[job := Deferred(s.jobs[job], now)])
      else s.(workers := s.workers[worker := Deleting(job)])
    case Delete(worker, gone) =>
      var job := s.workers[worker].job;
      s.(workers := s.workers[worker := Deleted(job, gone)], objects := if job in s.jobs then Without(s.objects, s.jobs[job].key, gone) else s.objects)
    case Finish(worker, committed, now) =>
      var w, rest := s.workers[worker], s.workers - {worker};
      if !committed || w.job !in s.jobs then s.(workers := rest)
      else if w.gone then s.(workers := rest, jobs := s.jobs - {w.job})
      else s.(workers := rest, jobs := s.jobs[w.job := Deferred(s.jobs[w.job], now)])
  }

  /** The session before its step; a first step finds a new one. */
  function Acting(s: Store, e: Step): Session
    requires ActingSession(e).Some?
  {
    if e.id in s.sessions then s.sessions[e.id] else FIRST
  }

  function After(s: Store, e: Step): Store
    requires Enabled(s, e)
  {
    if ActingSession(e).None? then Worked(s, e)
    else SetSession(World(s, Acting(s, e), e), e.id, Moved(s, Acting(s, e), e))
  }

  // ---------------------------------------------------------------- invariants

  /** Every row refers to an object that is stored. */
  ghost predicate Stored(s: Store) {
    s.rows <= s.objects
  }

  /** A commit that landed after its check, on an object the session had purged or then purged. */
  predicate LostBy(s: Store, x: Session, k: Key) {
    x.fate.Late? && k in x.staged && k in x.purged && k !in s.dropped
  }

  ghost predicate Lost(s: Store, k: Key) {
    exists id | id in s.sessions :: LostBy(s, s.sessions[id], k)
  }

  /** Which fates and phases go together. */
  predicate Fits(x: Session) {
    && (x.fate.Plain? || x.loose == {})
    && (x.phase.Open? || x.phase.Failed? ==> x.fate.Plain?)
    && (x.phase.Doubt? ==> x.loose == {} && !x.fate.Late? && (x.phase.applied <==> x.fate.Plain?) && x.staged !! x.purged)
    && (x.phase.Purging? && !x.fate.Plain? ==> x.phase.left <= x.staged && (x.phase.left != {} ==> x.checked))
    && (!x.fate.Plain? && !(x.staged !! x.purged) ==> x.checked)
    && (x.phase.Open? ==> x.staged + x.loose !! x.purged)
  }

  ghost predicate SessionOk(s: Store, x: Session) {
    && Held(x) + x.staged + x.purged <= x.uploads <= s.used && x.staged !! x.loose && Fits(x)
    && Unborn(x) !! s.rows + s.dropped && Unborn(x) <= s.objects + x.purged && x.purged !! s.objects
    && (x.fate.Late? ==> x.staged <= s.rows + s.dropped)
    && (!x.fate.Late? && !(x.phase.Doubt? && x.phase.applied) ==> Held(x) !! s.rows)
    && x.uploads <= Held(x) + x.attempted + x.kept + x.referenced
  }

  /** No two sessions upload the same key. */
  ghost predicate Apart(s: Store) {
    forall a, b | a in s.sessions && b in s.sessions && a != b :: s.sessions[a].uploads !! s.sessions[b].uploads
  }

  ghost predicate JobsOk(s: Store) {
    && (forall j | j in s.jobs :: j < s.nextJob && s.jobs[j].key in s.dropped)
    && s.rows + s.dropped <= s.used && s.rows !! s.dropped
    && (forall w | w in s.workers :: s.workers[w].job in s.jobs)
    && (forall v, w | v in s.workers && w in s.workers && v != w :: s.workers[v].job != s.workers[w].job)
  }

  /** A row is without its object only if a late commit and its own purge lost it. */
  ghost predicate RowsOk(s: Store) {
    forall k | k in s.rows :: k in s.objects || Lost(s, k)
  }

  ghost predicate Inv(s: Store) {
    RowsOk(s) && Apart(s) && JobsOk(s) && forall id | id in s.sessions :: SessionOk(s, s.sessions[id])
  }

  predicate Writes(e: Step) {
    e.Commit? || e.CommitRaises? || e.Land?
  }

  predicate Deletes(e: Step) {
    e.Release? || e.HandlerFails? || e.Purge?
  }

  // ---------------------------------------------------------------- the acting session

  lemma FirstOk(s: Store, x: Session)
    requires x == FIRST
    ensures SessionOk(s, x)
  {
  }

  lemma UploadOk(s: Store, x: Session, e: Step)
    requires SessionOk(s, x) && x.phase.Open? && e.Upload? && e.key !in s.used && s.rows + s.dropped <= s.used
    ensures SessionOk(World(s, x, e), Moved(s, x, e))
  {
  }

  lemma HandlingOk(s: Store, x: Session, e: Step)
    requires SessionOk(s, x) && x.phase.Open? && ((e.Stage? && e.key in x.loose) || e.Raise? || e.Remove?)
    ensures SessionOk(s, Moved(s, x, e))
  {
  }

  lemma EndingOk(s: Store, x: Session, e: Step)
    requires SessionOk(s, x) && ((e.Rollback? && x.phase.Failed?) || (e.End? && x.phase == Purging({})))
    ensures SessionOk(s, Moved(s, x, e))
  {
  }

  lemma HandlerDeletesOk(s: Store, x: Session, e: Step)
    requires SessionOk(s, x) && x.phase.Open? && ((e.Release? && e.key in x.loose) || (e.HandlerFails? && e.key in x.staged + x.loose))
    ensures SessionOk(World(s, x, e), Moved(s, x, e))
  {
  }

  lemma PurgeOk(s: Store, x: Session, e: Step)
    requires SessionOk(s, x) && x.phase.Purging? && e.Purge? && e.key in x.phase.left
    ensures SessionOk(World(s, x, e), Moved(s, x, e))
  {
  }

  lemma CommitOk(s: Store, x: Session, e: Step)
    requires SessionOk(s, x) && x.phase.Open? && x.loose == {} && (e.Commit? || e.CommitRaises?)
    ensures SessionOk(World(s, x, e), Moved(s, x, e))
  {
  }

  lemma LandOk(s: Store, x: Session, e: Step)
    requires SessionOk(s, x) && x.fate.Limbo? && e.Land?
    ensures SessionOk(World(s, x, e), Moved(s, x, e))
  {
  }

  lemma VerifyOk(s: Store, x: Session, e: Step)
    requires SessionOk(s, x) && x.phase.Doubt? && e.Verify?
    ensures SessionOk(s, Moved(s, x, e))
  {
  }

  /** The step a session takes is one its phase allows. */
  predicate Allowed(s: Store, x: Session, e: Step) {
    match e
    case Begin(_) => x == FIRST
    case Upload(_, key) => x.phase.Open? && key !in s.used
    case Stage(_, key) => x.phase.Open? && key in x.loose
    case Release(_, key, _) => x.phase.Open? && key in x.loose
    case HandlerFails(_, key, _) => x.phase.Open? && key in x.staged + x.loose
    case Raise(_) => x.phase.Open?
    case Remove(_, key) => x.phase.Open?
    case Rollback(_) => x.phase.Failed?
    case Commit(_, _) => x.phase.Open? && x.loose == {}
    case CommitRaises(_, _, _) => x.phase.Open? && x.loose == {}
    case Land(_, _) => x.fate.Limbo?
    case Verify(_, _) => x.phase.Doubt?
    case Purge(_, key, _) => x.phase.Purging? && key in x.phase.left
    case End(_) => x.phase == Purging({})
    case _ => false
  }

  lemma EnabledAllows(s: Store, e: Step)
    requires Enabled(s, e) && ActingSession(e).Some?
    ensures Allowed(s, Acting(s, e), e)
  {
  }

  lemma ActorOk(s: Store, x: Session, e: Step)
    requires SessionOk(s, x) && Allowed(s, x, e) && s.rows + s.dropped <= s.used
    ensures SessionOk(World(s, x, e), Moved(s, x, e))
  {
    hide SessionOk, Written, Held, Tried;
    match e
    case Begin(_) =>
    case Upload(_, _) => UploadOk(s, x, e);
    case Stage(_, _) => HandlingOk(s, x, e);
    case Release(_, _, _) => HandlerDeletesOk(s, x, e);
    case HandlerFails(_, _, _) => HandlerDeletesOk(s, x, e);
    case Raise(_) => HandlingOk(s, x, e);
    case Remove(_, _) => HandlingOk(s, x, e);
    case Rollback(_) => EndingOk(s, x, e);
    case Commit(_, _) => CommitOk(s, x, e);
    case CommitRaises(_, _, _) => CommitOk(s, x, e);
    case Land(_, _) => LandOk(s, x, e);
    case Verify(_, _) => VerifyOk(s, x, e);
    case Purge(_, _, _) => PurgeOk(s, x, e);
    case End(_) => EndingOk(s, x, e);
  }

  // ---------------------------------------------------------------- sessions beside a step

  /** What may happen to the rest of the store without disturbing a session. */
  ghost predicate Undisturbed(s: Store, t: Store, x: Session) {
    && s.used <= t.used && s.dropped <= t.dropped
    && Unborn(x) * s.objects <= t.objects && t.objects * x.purged <= s.objects
    && t.rows * x.uploads <= s.rows && s.rows * x.uploads <= t.rows + t.dropped && t.dropped * Unborn(x) <= s.dropped
  }

  lemma SessionKept(s: Store, t: Store, x: Session)
    requires SessionOk(s, x) && Undisturbed(s, t, x)
    ensures SessionOk(t, x)
  {
  }

  lemma WritingBeside(s: Store, x: Session, y: Session, now: Time)
    requires SessionOk(s, x) && SessionOk(s, y) && x.uploads !! y.uploads
    ensures Undisturbed(s, Written(s, x, now), y)
  {
  }

  lemma DeletingBeside(s: Store, t: Store, key: Key, gone: bool, y: Session)
    requires key !in Unborn(y) && t.objects == Without(s.objects, key, gone) && t.rows == s.rows && t.dropped == s.dropped && s.used <= t.used
    ensures Undisturbed(s, t, y)
  {
  }

  lemma UploadBeside(s: Store, y: Session, key: Key)
    requires SessionOk(s, y) && key !in s.used
    ensures Undisturbed(s, s.(objects := s.objects + {key}, used := s.used + {key}), y)
  {
  }

  /** A session's step leaves every other session undisturbed. */
  lemma SessionBeside(s: Store, x: Session, y: Session, e: Step)
    requires SessionOk(s, x) && SessionOk(s, y) && x.uploads !! y.uploads && Allowed(s, x, e)
    ensures Undisturbed(s, World(s, x, e), y)
  {
    if Writes(e) { WritingBeside(s, x, y, e.now); }
    if Deletes(e) {
      assert e.key in x.uploads && e.key !in Unborn(y);
      DeletingBeside(s, World(s, x, e), e.key, e.gone, y);
    }
    if e.Upload? { UploadBeside(s, y, e.key); }
    hide SessionOk, Written;
  }

  lemma SameStore(s: Store, t: Store, x: Session)
    requires SessionOk(s, x) && t.objects == s.objects && t.rows == s.rows && t.dropped == s.dropped && t.used == s.used
    ensures SessionOk(t, x)
  {
  }

  lemma UploadsMove(s: Store, x: Session, e: Step)
    ensures Moved(s, x, e).uploads == if e.Upload? then x.uploads + {e.key} else x.uploads
    ensures x.staged <= Moved(s, x, e).staged && x.purged <= Moved(s, x, e).purged && (x.fate.Late? ==> e.Land? || e.CommitRaises? || Moved(s, x, e).fate.Late?)
  {
  }

  lemma ActingIs(s: Store, e: Step)
    requires Inv(s) && Enabled(s, e) && ActingSession(e).Some?
    ensures SessionOk(s, Acting(s, e)) && Allowed(s, Acting(s, e), e) && s.rows + s.dropped <= s.used
  {
    EnabledAllows(s, e);
    if e.id !in s.sessions { FirstOk(s, Acting(s, e)); }
  }

  /** After a session's step every session is sound. */
  lemma SessionsSound(s: Store, e: Step, o: nat)
    requires Inv(s) && Enabled(s, e) && ActingSession(e).Some? && o in After(s, e).sessions
    ensures SessionOk(After(s, e), After(s, e).sessions[o])
  {
    hide Moved, World;
    ActingIs(s, e);
    WorldSessions(s, Acting(s, e), e);
    var w := World(s, Acting(s, e), e);
    if o == e.id {
      hide Inv, SessionOk;
      ActorOk(s, Acting(s, e), e);
      SameStore(w, After(s, e), Moved(s, Acting(s, e), e));
    } else {
      UploadsOf(s, e, o);
      assert SessionOk(s, s.sessions[o]);
      hide Inv, SessionOk;
      SessionBeside(s, Acting(s, e), s.sessions[o], e);
      SessionKept(s, w, s.sessions[o]);
      SameStore(w, After(s, e), s.sessions[o]);
    }
  }

  lemma WorldSessions(s: Store, x: Session, e: Step)
    ensures World(s, x, e).sessions == s.sessions && World(s, x, e).workers == s.workers
  {
  }

  lemma UploadsOf(s: Store, e: Step, o: nat)
    requires Inv(s) && ActingSession(e).Some? && o in s.sessions && o != e.id
    ensures Acting(s, e).uploads !! s.sessions[o].uploads
  {
  }

  lemma SessionsSoundBesideWorker(s: Store, e: Step, o: nat)
    requires Inv(s) && Enabled(s, e) && ActingSession(e).None? && o in After(s, e).sessions
    ensures SessionOk(After(s, e), After(s, e).sessions[o])
  {
    var t, x := After(s, e), s.sessions[o];
    assert SessionOk(s, x);
    if e.Delete? {
      var key := s.jobs[s.workers[e.worker].job].key;
      assert key in s.dropped && key !in Unborn(x);
      DeletingBeside(s, t, key, e.gone, x);
      hide Inv, SessionOk;
      SessionKept(s, t, x);
    } else {
      hide Inv, SessionOk;
      SameStore(s, t, x);
    }
  }

  lemma SessionsApart(s: Store, e: Step)
    requires Inv(s) && Enabled(s, e)
    ensures Apart(After(s, e))
  {
    hide SessionOk, RowsOk, JobsOk, Moved, World;
    if ActingSession(e).Some? {
      var x := Acting(s, e);
      UploadsMove(s, x, e);
      WorldSessions(s, x, e);
      if e.Upload? {
        forall o | o in s.sessions ensures e.key !in s.sessions[o].uploads { UploadFresh(s, o, e.key); }
      }
      forall o | o in s.sessions && o != e.id ensures x.uploads !! s.sessions[o].uploads { UploadsOf(s, e, o); }
    }
  }

  lemma UploadFresh(s: Store, o: nat, key: Key)
    requires Inv(s) && o in s.sessions && key !in s.used
    ensures key !in s.sessions[o].uploads
  {
    assert SessionOk(s, s.sessions[o]);
  }

  // ---------------------------------------------------------------- rows and jobs

  /** A row the acting session leaves without its object is lost by that session. */
  lemma RowOfActor(s: Store, x: Session, e: Step, k: Key)
    requires SessionOk(s, x) && Allowed(s, x, e) && k in World(s, x, e).rows && (k in s.rows ==> k in s.objects) && World(s, x, e).rows !! World(s, x, e).dropped
    ensures k in World(s, x, e).objects || LostBy(World(s, x, e), Moved(s, x, e), k)
  {
  }

  lemma LostStays(s: Store, e: Step, k: Key)
    requires Inv(s) && Enabled(s, e) && Lost(s, k) && k !in After(s, e).dropped
    ensures Lost(After(s, e), k)
  {
    hide RowsOk, JobsOk, SessionOk, Apart, World, Moved;
    var id :| id in s.sessions && LostBy(s, s.sessions[id], k);
    if ActingSession(e) == Some(id) {
      EnabledAllows(s, e);
      SessionHolds(s, id);
      LateStays(s, s.sessions[id], e);
      WorldSessions(s, s.sessions[id], e);
    } else if ActingSession(e).Some? {
      WorldSessions(s, Acting(s, e), e);
    }
    assert LostBy(After(s, e), After(s, e).sessions[id], k);
  }

  lemma SessionHolds(s: Store, id: nat)
    requires Inv(s) && id in s.sessions
    ensures SessionOk(s, s.sessions[id]) && Fits(s.sessions[id])
  {
  }

  lemma LateStays(s: Store, x: Session, e: Step)
    requires x.fate.Late? && Allowed(s, x, e) && Fits(x)
    ensures var y := Moved(s, x, e); y.fate.Late? && x.staged <= y.staged && x.purged <= y.purged
  {
  }

  lemma JobsAfterSession(s: Store, x: Session, e: Step)
    requires JobsOk(s) && SessionOk(s, x) && Allowed(s, x, e)
    ensures JobsOk(World(s, x, e))
  {
  }

  lemma JobsKept(s: Store, e: Step)
    requires Inv(s) && Enabled(s, e)
    ensures JobsOk(After(s, e))
  {
    if ActingSession(e).Some? {
      ActingIs(s, e);
      JobsAfterSession(s, Acting(s, e), e);
      hide Inv, World, Moved;
    } else {
      hide SessionOk, RowsOk, Apart;
    }
  }

  lemma RowsKept(s: Store, e: Step)
    requires Inv(s) && Enabled(s, e) && JobsOk(After(s, e))
    ensures RowsOk(After(s, e))
  {
    var t := After(s, e);
    forall k | k in t.rows ensures k in t.objects || Lost(t, k) {
      RowKept(s, e, k);
    }
  }

  lemma RowKept(s: Store, e: Step, k: Key)
    requires Inv(s) && Enabled(s, e) && JobsOk(After(s, e)) && k in After(s, e).rows
    ensures k in After(s, e).objects || Lost(After(s, e), k)
  {
    var t := After(s, e);
    if Lost(s, k) {
      LostStays(s, e, k);
    } else if ActingSession(e).Some? {
      var x := Acting(s, e);
      ActingIs(s, e);
      RowOfActor(s, x, e, k);
      hide Inv, World, Moved;
      assert t.sessions[e.id] == Moved(s, x, e);
      if LostBy(World(s, x, e), Moved(s, x, e), k) { assert LostBy(t, t.sessions[e.id], k); }
    }
  }

  lemma StepKeeps(s: Store, e: Step)
    requires Inv(s) && Enabled(s, e)
    ensures Inv(After(s, e))
  {
    SessionsApart(s, e);
    JobsKept(s, e);
    RowsKept(s, e);
    hide After, SessionOk, RowsOk, JobsOk, Apart, Enabled;
    forall o | o in After(s, e).sessions ensures SessionOk(After(s, e), After(s, e).sessions[o]) {
      if ActingSession(e).Some? { SessionsSound(s, e, o); } else { SessionsSoundBesideWorker(s, e, o); }
    }
  }

  // ---------------------------------------------------------------- runs

  ghost predicate Moves(s: Store, t: Store) {
    exists e :: Enabled(s, e) && t == After(s, e)
  }

  ghost predicate Run(r: seq<Store>) {
    r != [] && r[0] == EMPTY_STORE && forall i | 0 <= i < |r| - 1 :: Moves(r[i], r[i + 1])
  }

  lemma {:induction false} RunInv(r: seq<Store>, x: nat)
    requires Run(r) && x < |r|
    ensures Inv(r[x])
  {
    hide After, Enabled;
    if x > 0 {
      RunInv(r, x - 1);
      assert Moves(r[x - 1], r[x - 1 + 1]);
      var e :| Enabled(r[x - 1], e) && r[x] == After(r[x - 1], e);
      hide Inv;
      StepKeeps(r[x - 1], e);
    }
  }

  /**
   Exactly which rows are ever without their object: those of a commit that landed after its own
   check, whose object that session deleted, and whose row nobody removed since.
   */
  lemma LostRowsExactly(r: seq<Store>, x: nat, k: Key)
    requires Run(r) && x < |r|
    ensures k in r[x].rows && k !in r[x].objects <==> Lost(r[x], k)
  {
    RunInv(r, x);
    hide Run;
    if Lost(r[x], k) {
      var id :| id in r[x].sessions && LostBy(r[x], r[x].sessions[id], k);
      assert SessionOk(r[x], r[x].sessions[id]);
    }
  }

  /** Such a session had a check that could read the rows and found none. */
  lemma LossNeedsCheck(r: seq<Store>, x: nat, id: nat, k: Key)
    requires Run(r) && x < |r| && id in r[x].sessions && LostBy(r[x], r[x].sessions[id], k)
    ensures r[x].sessions[id].checked && k in r[x].sessions[id].attempted + r[x].sessions[id].purged
  {
    RunInv(r, x);
    assert SessionOk(r[x], r[x].sessions[id]);
  }

  /** No interleaving loses the object of a committed row, but for a commit that lands after a readable check and a purge. */
  lemma CommittedObjectsStored(r: seq<Store>, x: nat)
    requires Run(r) && x < |r|
    ensures Stored(r[x]) <==> forall id | id in r[x].sessions && r[x].sessions[id].fate.Late? && r[x].sessions[id].checked ::
                                r[x].sessions[id].staged * r[x].sessions[id].purged <= r[x].dropped
  {
    var s := r[x];
    hide Run;
    if Stored(s) {
      forall id, k | id in s.sessions && s.sessions[id].fate.Late? && k in s.sessions[id].staged * s.sessions[id].purged ensures k in s.dropped {
        LostRowsExactly(r, x, k);
        var lost := LostBy(s, s.sessions[id], k);
      }
    } else {
      var k :| k in s.rows && k !in s.objects;
      LostRowsExactly(r, x, k);
      var id :| id in s.sessions && LostBy(s, s.sessions[id], k);
      LossNeedsCheck(r, x, id, k);
      assert k in s.sessions[id].staged * s.sessions[id].purged;
    }
  }

  /** So every row keeps its object if late commits had unreadable checks, or purges that all failed, or there are none. */
  lemma LateCommitsSafe(r: seq<Store>, x: nat)
    requires Run(r) && x < |r|
    requires forall id | id in r[x].sessions && r[x].sessions[id].fate.Late? :: !r[x].sessions[id].checked || r[x].sessions[id].purged == {}
    ensures r[x].rows <= r[x].objects
  {
    CommittedObjectsStored(r, x);
  }

  /** The guard of the losing branch: a landing after its check with an object gone, or a purge of what landed meanwhile. */
  predicate Loses(s: Store, e: Step)
    requires Enabled(s, e)
  {
    || (e.Land? && !s.sessions[e.id].phase.Doubt? && s.sessions[e.id].staged * s.sessions[e.id].purged != {})
    || (e.Purge? && e.gone && s.sessions[e.id].fate.Late? && e.key in s.rows)
  }

  lemma ActorLoses(s: Store, x: Session, e: Step)
    requires SessionOk(s, x) && Allowed(s, x, e) && Stored(s)
    ensures !Stored(World(s, x, e)) <==>
              || (e.Land? && !x.phase.Doubt? && x.staged * x.purged != {})
              || (e.Purge? && e.gone && x.fate.Late? && e.key in s.rows)
  {
    if e.Land? && x.staged * x.purged != {} {
      var k :| k in x.staged * x.purged;
      assert k in World(s, x, e).rows && k !in World(s, x, e).objects;
    }
  }

  /** One step breaks the law exactly when it takes the losing branch. */
  lemma LosingStep(r: seq<Store>, x: nat, e: Step)
    requires Run(r) && x < |r| && Enabled(r[x], e) && Stored(r[x])
    ensures Stored(After(r[x], e)) <==> !Loses(r[x], e)
  {
    RunInv(r, x);
    hide Run;
    var s := r[x];
    if ActingSession(e).Some? {
      ActingIs(s, e);
      ActorLoses(s, Acting(s, e), e);
      hide Inv, World, Moved;
    }
  }

  // ---------------------------------------------------------------- nothing is forgotten

  ghost predicate HasJob(s: Store, k: Key) {
    exists j | j in s.jobs :: s.jobs[j].key == k
  }

  /** The file of a removed draft that is still stored is queued for deletion, and a deleted file stays deleted. */
  ghost predicate Queued(s: Store) {
    && (forall k | k in s.dropped && k in s.objects :: HasJob(s, k))
    && (forall w | w in s.workers :: s.workers[w].Deleted? && s.workers[w].gone && s.workers[w].job in s.jobs ==> s.jobs[s.workers[w].job].key !in s.objects)
  }

  /** What a session counts as referenced has, or had, a row. */
  ghost predicate Recorded(s: Store) {
    forall id | id in s.sessions :: s.sessions[id].referenced <= s.rows + s.dropped
  }

  lemma QueuedByWriting(s: Store, x: Session, now: Time)
    requires JobsOk(s) && Queued(s)
    ensures Queued(Written(s, x, now)) && s.rows + s.dropped <= Written(s, x, now).rows + Written(s, x, now).dropped
    ensures x.staged <= Written(s, x, now).rows + Written(s, x, now).dropped
  {
    var t := Written(s, x, now);
    forall k | k in t.dropped && k in t.objects ensures HasJob(t, k) {
      if k in s.dropped {
        var j :| j in s.jobs && s.jobs[j].key == k;
        assert t.jobs[j].key == k;
      } else {
        assert t.jobs[s.nextJob].key == k;
      }
    }
  }

  lemma QueuedBySession(s: Store, x: Session, e: Step)
    requires JobsOk(s) && Queued(s) && Allowed(s, x, e)
    ensures Queued(World(s, x, e)) && s.rows + s.dropped <= World(s, x, e).rows + World(s, x, e).dropped
  {
    if Writes(e) {
      QueuedByWriting(s, x, e.now);
    } else if Deletes(e) || e.Upload? {
      var t := World(s, x, e);
      assert t.jobs == s.jobs;
      assert forall k | HasJob(s, k) :: HasJob(t, k);
    }
  }

  lemma RecordedByActor(s: Store, x: Session, e: Step)
    requires JobsOk(s) && Queued(s) && Allowed(s, x, e) && x.referenced <= s.rows + s.dropped
    ensures Moved(s, x, e).referenced <= World(s, x, e).rows + World(s, x, e).dropped
  {
    QueuedBySession(s, x, e);
    if e.Commit? { QueuedByWriting(s, x, e.now); }
    hide Queued, JobsOk;
  }

  lemma QueuedByWorker(s: Store, e: Step)
    requires JobsOk(s) && Queued(s) && Enabled(s, e) && ActingSession(e).None?
    ensures Queued(Worked(s, e))
  {
    var t := Worked(s, e);
    forall k | k in t.dropped && k in t.objects ensures HasJob(t, k) {
      var j :| j in s.jobs && s.jobs[j].key == k;
      assert j in t.jobs && t.jobs[j].key == k;
    }
  }

  lemma SessionForgetsNothing(s: Store, e: Step)
    requires JobsOk(s) && Enabled(s, e) && ActingSession(e).Some? && Allowed(s, Acting(s, e), e) && Queued(s) && Recorded(s)
    ensures Queued(After(s, e)) && Recorded(After(s, e))
  {
    hide Allowed, Enabled, World, Moved, Queued, JobsOk;
    var x := Acting(s, e);
    QueuedBySession(s, x, e);
    RecordedByActor(s, x, e);
    WorldSessions(s, x, e);
    SameQueue(World(s, x, e), After(s, e));
  }

  lemma ForgetsNothing(s: Store, e: Step)
    requires Inv(s) && Enabled(s, e) && Queued(s) && Recorded(s)
    ensures Queued(After(s, e)) && Recorded(After(s, e))
  {
    hide Inv, Queued;
    JobsAre(s);
    if ActingSession(e).Some? {
      EnabledAllows(s, e);
      hide After, Enabled, JobsOk;
      SessionForgetsNothing(s, e);
    } else {
      QueuedByWorker(s, e);
    }
  }

  lemma JobsAre(s: Store)
    requires Inv(s)
    ensures JobsOk(s)
  {
  }

  lemma SameQueue(s: Store, t: Store)
    requires Queued(s) && t.dropped == s.dropped && t.objects == s.objects && t.jobs == s.jobs && t.workers == s.workers
    ensures Queued(t)
  {
    assert forall k | HasJob(s, k) :: HasJob(t, k);
  }

  lemma {:induction false} RunForgetsNothing(r: seq<Store>, x: nat)
    requires Run(r) && x < |r|
    ensures Queued(r[x]) && Recorded(r[x])
  {
    hide Inv, After, Enabled;
    if x > 0 {
      RunForgetsNothing(r, x - 1);
      RunInv(r, x - 1);
      assert Moves(r[x - 1], r[x - 1 + 1]);
      var e :| Enabled(r[x - 1], e) && r[x] == After(r[x - 1], e);
      ForgetsNothing(r[x - 1], e);
    }
  }

  /** In every reachable state the stored file of a removed draft has a deletion job. */
  lemma RemovedFilesQueued(r: seq<Store>, x: nat, k: Key)
    requires Run(r) && x < |r| && k in r[x].dropped && k in r[x].objects
    ensures exists j | j in r[x].jobs :: r[x].jobs[j].key == k
  {
    hide Run;
    RunForgetsNothing(r, x);
    assert HasJob(r[x], k);
  }

  /** When a request has ended, each of its uploads has or had a row, or its deletion was attempted, or it was kept unverified. */
  lemma UploadsAccounted(r: seq<Store>, x: nat, id: nat)
    requires Run(r) && x < |r| && id in r[x].sessions && r[x].sessions[id].phase.Done?
    ensures var s := r[x].sessions[id]; s.uploads <= s.referenced + s.attempted + s.kept && s.referenced <= r[x].rows + r[x].dropped
  {
    RunInv(r, x);
    RunForgetsNothing(r, x);
    hide Run;
    assert SessionOk(r[x], r[x].sessions[id]);
  }

  // ---------------------------------------------------------------- a commit that lands late

  /** A store whose only request uploaded object 7. */
  function OneUpload(phase: Phase, fate: Fate, staged: set<Key>, loose: set<Key>, purged: set<Key>, objects: set<Key>, rows: set<Key>, checked: bool): Store {
    Store(objects, rows, {}, map[], 0, map[0 := Session(phase, fate, staged, loose, None, {7}, purged, {}, {}, purged, checked)], map[], {7})
  }

  /** A step of the only request, read off its effect on the session and on the rest. */
  lemma Taken(s: Store, e: Step, t: Store)
    requires Enabled(s, e) && ActingSession(e) == Some(0) && s.sessions.Keys <= {0} && t.sessions.Keys == {0}
    requires Moved(s, Acting(s, e), e) == t.sessions[0] && World(s, Acting(s, e), e).(sessions := t.sessions) == t
    ensures Moves(s, t)
  {
    hide Moved, World;
    WorldSessions(s, Acting(s, e), e);
    assert After(s, e).sessions == t.sessions;
  }

  lemma UploadAndStage()
    ensures Moves(EMPTY_STORE, EMPTY_STORE.(sessions := map[0 := FIRST]))
    ensures Moves(EMPTY_STORE.(sessions := map[0 := FIRST]), OneUpload(Open, Plain, {}, {7}, {}, {7}, {}, false))
    ensures Moves(OneUpload(Open, Plain, {}, {7}, {}, {7}, {}, false), OneUpload(Open, Plain, {7}, {}, {}, {7}, {}, false))
  {
    hide Moves;
    var none: set<Key> := {};
    assert none + {7} == {7} && {7} - {7} == none;
    Taken(EMPTY_STORE, Begin(0), EMPTY_STORE.(sessions := map[0 := FIRST]));
    Taken(EMPTY_STORE.(sessions := map[0 := FIRST]), Upload(0, 7), OneUpload(Open, Plain, {}, {7}, {}, {7}, {}, false));
    Taken(OneUpload(Open, Plain, {}, {7}, {}, {7}, {}, false), Stage(0, 7), OneUpload(Open, Plain, {7}, {}, {}, {7}, {}, false));
  }

  lemma CommitAndVerify()
    ensures Moves(OneUpload(Open, Plain, {7}, {}, {}, {7}, {}, false), OneUpload(Doubt(false), Limbo, {7}, {}, {}, {7}, {}, false))
    ensures Moves(OneUpload(Doubt(false), Limbo, {7}, {}, {}, {7}, {}, false), OneUpload(Purging({7}), Limbo, {7}, {}, {}, {7}, {}, true))
  {
    hide Moves;
    var none: set<Key> := {};
    assert {7} - none == {7} && {7} * none == none && none + none == none;
    Taken(OneUpload(Open, Plain, {7}, {}, {}, {7}, {}, false), CommitRaises(0, false, 0), OneUpload(Doubt(false), Limbo, {7}, {}, {}, {7}, {}, false));
    Taken(OneUpload(Doubt(false), Limbo, {7}, {}, {}, {7}, {}, false), Verify(0, true), OneUpload(Purging({7}), Limbo, {7}, {}, {}, {7}, {}, true));
  }

  lemma PurgeAndLand()
    ensures Moves(OneUpload(Purging({7}), Limbo, {7}, {}, {}, {7}, {}, true), OneUpload(Purging({}), Limbo, {7}, {}, {7}, {}, {}, true))
    ensures Moves(OneUpload(Purging({}), Limbo, {7}, {}, {7}, {}, {}, true), OneUpload(Purging({}), Late, {7}, {}, {7}, {}, {7}, true))
  {
    hide Moves;
    var none: set<Key> := {};
    assert {7} - {7} == none && none + {7} == {7};
    Taken(OneUpload(Purging({7}), Limbo, {7}, {}, {}, {7}, {}, true), Purge(0, 7, true), OneUpload(Purging({}), Limbo, {7}, {}, {7}, {}, {}, true));
    Taken(OneUpload(Purging({}), Limbo, {7}, {}, {7}, {}, {}, true), Land(0, 0), OneUpload(Purging({}), Late, {7}, {}, {7}, {}, {7}, true));
  }

  /** A run that ends in the losing step: the commit raises, its check finds no row, the upload is purged, the commit lands. */
  lemma LateCommitLosesObject() returns (r: seq<Store>)
    ensures Run(r) && !Stored(r[|r| - 1]) && forall i | 0 <= i < |r| - 1 :: Stored(r[i])
  {
    hide Moves;
    UploadAndStage();
    CommitAndVerify();
    PurgeAndLand();
    r := [EMPTY_STORE, EMPTY_STORE.(sessions := map[0 := FIRST]), OneUpload(Open, Plain, {}, {7}, {}, {7}, {}, false), OneUpload(Open, Plain, {7}, {}, {}, {7}, {}, false),
          OneUpload(Doubt(false), Limbo, {7}, {}, {}, {7}, {}, false), OneUpload(Purging({7}), Limbo, {7}, {}, {}, {7}, {}, true),
          OneUpload(Purging({}), Limbo, {7}, {}, {7}, {}, {}, true), OneUpload(Purging({}), Late, {7}, {}, {7}, {}, {7}, true)];
    assert 7 in r[7].rows && 7 !in r[7].objects;
  }

  // ---------------------------------------------------------------- the deletion queue

  /** Waits start at half a minute, never shrink, and stop growing at an hour. */
  lemma DelayGrows(m: nat, n: nat)
    requires 1 <= m <= n
    ensures 30 <= Delay(m) <= Delay(n) <= 3600 && (n >= 8 ==> Delay(n) == 3600)
  {
    var a, b := if m - 1 < 7 then m - 1 else 7, if n - 1 < 7 then n - 1 else 7;
    PowerGrows(a, b);
    assert Power(7) == 128;
  }

  /** The wait after each failure: half a minute, doubling, then an hour from the eighth on. */
  lemma DelayTable(n: nat)
    requires n >= 1
    ensures Delay(n) == if n <= 7 then [30, 60, 120, 240, 480, 960, 1920][n - 1] else 3600
  {
    assert Power(1) == 2 && Power(2) == 4 && Power(3) == 8 && Power(4) == 16 && Power(5) == 32 && Power(6) == 64 && Power(7) == 128;
  }

  lemma {:induction false} PowerGrows(m: nat, n: nat)
    requires m <= n
    ensures 1 <= Power(m) <= Power(n)
  {
    if m < n {
      PowerGrows(m, n - 1);
    } else if m > 0 {
      PowerGrows(m - 1, m - 1);
    }
  }

  datatype Outcome = Gone | Retry | Idle

  /** A due job that no other worker has locked. */
  predicate Due(s: Store, j: nat, now: Time) {
    j in s.jobs && s.jobs[j].nextAttempt <= now && !Claimed(s, j)
  }

  predicate Before(jobs: map<nat, Job>, j: nat, o: nat) {
    && j in jobs && o in jobs
    && (jobs[j].nextAttempt < jobs[o].nextAttempt || (jobs[j].nextAttempt == jobs[o].nextAttempt && j < o))
  }

  /** Is this the due job that has waited longest, the lower id first? */
  predicate Next(s: Store, j: nat, now: Time) {
    Due(s, j, now) && forall o | o in s.jobs && Due(s, o, now) && o != j :: Before(s.jobs, j, o)
  }

  lemma {:induction false} SomeNext(s: Store, due: set<nat>, now: Time) returns (j: nat)
    requires due != {} && forall d | d in due :: Due(s, d, now)
    ensures j in due && forall o | o in due && o != j :: Before(s.jobs, j, o)
    decreases |due|
  {
    hide Claimed;
    var d :| d in due;
    if due == {d} {
      j := d;
    } else {
      assert due - {d} != {};
      var k := SomeNext(s, due - {d}, now);
      j := if Before(s.jobs, d, k) then d else k;
      forall o | o in due && o != j ensures Before(s.jobs, j, o) {
        assert Due(s, d, now) && Due(s, k, now) && Due(s, o, now);
        if o != d && o != k { assert Before(s.jobs, k, o); }
      }
    }
  }

  lemma WrittenBalance(s: Store, x: Session, now: Time)
    requires forall j | j in s.jobs :: j < s.nextJob
    ensures |Written(s, x, now).jobs| - Written(s, x, now).nextJob <= |s.jobs| - s.nextJob && s.nextJob <= Written(s, x, now).nextJob
  {
    if x.removed.Some? && x.removed.value in s.rows {
      OneAdded(s.jobs, s.nextJob, Job(x.removed.value, now, 0));
    }
  }

  lemma WorkedBalance(s: Store, e: Step)
    requires Enabled(s, e) && ActingSession(e).None?
    ensures |Worked(s, e).jobs| <= |s.jobs| && Worked(s, e).nextJob == s.nextJob
  {
    assert Worked(s, e).jobs.Keys <= s.jobs.Keys;
    MapSizes(s.jobs, Worked(s, e).jobs);
  }

  /** Jobs are only ever added by a commit, one at a time under a new number. */
  lemma JobsBalance(s: Store, e: Step)
    requires Inv(s) && Enabled(s, e)
    ensures |After(s, e).jobs| - After(s, e).nextJob <= |s.jobs| - s.nextJob && s.nextJob <= After(s, e).nextJob
  {
    assert forall j | j in s.jobs :: j < s.nextJob;
    hide Inv, Moved, Written, Worked;
    if ActingSession(e).None? {
      WorkedBalance(s, e);
    } else if Writes(e) {
      WrittenBalance(s, Acting(s, e), e.now);
    }
  }

  lemma {:induction false} SetSizes(a: set<nat>, b: set<nat>)
    requires a <= b
    ensures |a| <= |b|
  {
    if a != {} {
      var x :| x in a;
      SetSizes(a - {x}, b - {x});
    }
  }

  lemma MapSizes(a: map<nat, Job>, b: map<nat, Job>)
    requires b.Keys <= a.Keys
    ensures |b| <= |a|
  {
    SetSizes(b.Keys, a.Keys);
    assert |a| == |a.Keys| && |b| == |b.Keys|;
  }

  lemma SameSizes(a: map<nat, Job>, b: map<nat, Job>)
    requires a.Keys == b.Keys
    ensures |a| == |b|
  {
    assert |a| == |a.Keys| && |b| == |b.Keys|;
  }

  lemma OneAdded(a: map<nat, Job>, j: nat, job: Job)
    requires j !in a
    ensures |a[j := job]| == |a| + 1
  {
    assert a[j := job].Keys == a.Keys + {j};
    OneLarger(a, a[j := job], j);
  }

  lemma OneLarger(a: map<nat, Job>, b: map<nat, Job>, j: nat)
    requires j !in a && b.Keys == a.Keys + {j}
    ensures |b| == |a| + 1
  {
    assert |a| == |a.Keys| && |b| == |b.Keys|;
  }

  /** Everything but one session and the objects is as it was. */
  ghost predicate OnlyObjects(s: Store, t: Store, id: nat) {
    && t.rows == s.rows && t.dropped == s.dropped && t.jobs == s.jobs && t.nextJob == s.nextJob && t.workers == s.workers && t.used == s.used
    && t.sessions.Keys == s.sessions.Keys && forall o | o in s.sessions && o != id :: t.sessions[o] == s.sessions[o]
  }

  lemma PurgeShape(s: Store, id: nat, key: Key, gone: bool)
    requires Enabled(s, Purge(id, key, gone))
    ensures var t := After(s, Purge(id, key, gone));
            && OnlyObjects(s, t, id) && t.objects == Without(s.objects, key, gone)
            && id in t.sessions && t.sessions[id].phase == Purging(s.sessions[id].phase.left - {key})
  {
  }

  lemma OnlyObjectsFurther(s: Store, t: Store, u: Store, id: nat)
    requires OnlyObjects(s, t, id) && OnlyObjects(t, u, id)
    ensures OnlyObjects(s, u, id)
  {
  }

  /** How far a session's purge has come. */
  ghost predicate Purged(s: Store, t: Store, id: nat, failing: set<Key>) {
    && id in s.sessions && s.sessions[id].phase.Purging? && id in t.sessions && t.sessions[id].phase.Purging? && OnlyObjects(s, t, id)
    && t.sessions[id].phase.left <= s.sessions[id].phase.left
    && t.objects == s.objects - ((s.sessions[id].phase.left - t.sessions[id].phase.left) - failing)
  }

  lemma PurgedSelf(s: Store, id: nat, failing: set<Key>)
    requires id in s.sessions && s.sessions[id].phase.Purging?
    ensures Purged(s, s, id, failing)
  {
  }

  lemma PurgedDone(s: Store, t: Store, id: nat, failing: set<Key>)
    requires Purged(s, t, id, failing)
    ensures id in t.sessions && t.sessions[id].phase.Purging? && OnlyObjects(s, t, id)
    ensures t.sessions[id].phase.left == {} ==> t.objects == s.objects - (s.sessions[id].phase.left - failing)
  {
    if t.sessions[id].phase.left == {} {
      assert s.sessions[id].phase.left - t.sessions[id].phase.left == s.sessions[id].phase.left;
    }
  }

  lemma PurgedMore(s: Store, t: Store, id: nat, failing: set<Key>, key: Key, gone: bool)
    requires Purged(s, t, id, failing) && key in t.sessions[id].phase.left && (gone <==> key !in failing)
    ensures Enabled(t, Purge(id, key, gone)) && Purged(s, After(t, Purge(id, key, gone)), id, failing)
    ensures After(t, Purge(id, key, gone)).sessions[id].phase == Purging(t.sessions[id].phase.left - {key})
  {
    var u := After(t, Purge(id, key, gone));
    PurgeShape(t, id, key, gone);
    hide After;
    OnlyObjectsFurther(s, t, u, id);
    hide OnlyObjects;
    Shrinks(s.objects, s.sessions[id].phase.left, t.sessions[id].phase.left, failing, key);
  }

  lemma Shrinks(objects: set<Key>, all: set<Key>, left: set<Key>, failing: set<Key>, key: Key)
    requires left <= all && key in left
    ensures Without(objects - ((all - left) - failing), key, key !in failing) == objects - ((all - (left - {key})) - failing)
  {
  }

  lemma EndShape(s: Store, id: nat, e: Step)
    requires Enabled(s, e) && (e == End(id) || e == Rollback(id) || (e.Verify? && e.id == id))
    ensures var t := After(s, e); OnlyObjects(s, t, id) && t.objects == s.objects && t.sessions[id] == Moved(s, s.sessions[id], e)
  {
    hide Moved;
  }

  /** The three writes of one pass over a job no row refers to. */
  lemma PassShape(s: Store, worker: nat, j: nat, now: Time, gone: bool)
    requires worker !in s.workers && Due(s, j, now) && s.jobs[j].key !in s.rows
    ensures Enabled(s, Claim(worker, j, now))
    ensures var a := After(s, Claim(worker, j, now)); Enabled(a, Delete(worker, gone)) && Enabled(After(a, Delete(worker, gone)), Finish(worker, true, now))
    ensures var a := After(s, Claim(worker, j, now));
            After(After(a, Delete(worker, gone)), Finish(worker, true, now))
            == s.(objects := Without(s.objects, s.jobs[j].key, gone),
                  jobs := if gone then s.jobs - {j} else s.jobs[j := Deferred(s.jobs[j], now)])
  {
    var a := After(s, Claim(worker, j, now));
    var b := After(a, Delete(worker, gone));
    assert a == s.(workers := s.workers[worker := Deleting(j)]);
    assert b == s.(workers := s.workers[worker := Deleted(j, gone)], objects := Without(s.objects, s.jobs[j].key, gone));
    assert b.workers - {worker} == s.workers;
  }

  /** The clean-up code, each of its writes a step that other requests may interleave with. */
  class Janitor {
    var store: Store

    constructor ()
      ensures store == EMPTY_STORE && Inv(store)
    {
      store := EMPTY_STORE;
    }

    method Take(e: Step)
      requires Inv(store) && Enabled(store, e)
      modifies this
      ensures Inv(store) && store == After(old(store), e)
    {
      StepKeeps(store, e);
      store := After(store, e);
    }

    /** Delete each key a session was left to purge; one failure does not stop the others. */
    method PurgeKeys(id: nat, failing: set<Key>)
      requires Inv(store) && id in store.sessions && store.sessions[id].phase.Purging?
      modifies this
      ensures Inv(store) && In(store, id, Purging({})) && OnlyObjects(old(store), store, id)
      ensures store.objects == old(store).objects - (old(store).sessions[id].phase.left - failing)
    {
      hide Inv, After, Purged, OnlyObjects, Enabled;
      ghost var first := store;
      PurgedSelf(store, id, failing);
      while store.sessions[id].phase.left != {}
        invariant Inv(store) && id in store.sessions && store.sessions[id].phase.Purging? && Purged(first, store, id, failing)
        decreases store.sessions[id].phase.left
      {
        var key :| key in store.sessions[id].phase.left;
        var gone := key !in failing;
        PurgedMore(first, store, id, failing, key, gone);
        Take(Purge(id, key, gone));
        PurgedDone(first, store, id, failing);
      }
      PurgedDone(first, store, id, failing);
    }

    /** The handler raised: every upload is given up. */
    method RollbackWithUploadCleanup(id: nat, failing: set<Key>)
      requires Inv(store) && In(store, id, Failed)
      modifies this
      ensures Inv(store) && In(store, id, Done) && OnlyObjects(old(store), store, id)
      ensures store.objects == old(store).objects - (Held(old(store).sessions[id]) - failing)
    {
      hide Inv, After;
      EndShape(store, id, Rollback(id));
      Take(Rollback(id));
      PurgeKeys(id, failing);
      EndShape(store, id, End(id));
      Take(End(id));
    }

    /** The commit raised: what a row refers to is spared, and everything is when the rows cannot be read. */
    method RollbackFailedCommit(id: nat, readable: bool, failing: set<Key>)
      requires Inv(store) && id in store.sessions && store.sessions[id].phase.Doubt?
      modifies this
      ensures Inv(store) && In(store, id, Done) && OnlyObjects(old(store), store, id)
      ensures store.objects == old(store).objects - if readable then old(store).sessions[id].staged - old(store).rows - failing else {}
    {
      hide Inv, After;
      EndShape(store, id, Verify(id, readable));
      Take(Verify(id, readable));
      PurgeKeys(id, failing);
      EndShape(store, id, End(id));
      Take(End(id));
    }

    /** One pass: the longest-waiting due job is consumed or put off; a referenced object is never deleted. */
    method CleanupNext(worker: nat, now: Time, gone: bool) returns (outcome: Outcome, ghost job: nat)
      requires Inv(store) && worker !in store.workers
      modifies this
      ensures Inv(store) && store.rows == old(store).rows && store.workers == old(store).workers && store.sessions == old(store).sessions
      ensures outcome.Idle? <==> forall j | j in old(store).jobs :: !Due(old(store), j, now)
      ensures outcome.Idle? ==> store == old(store)
      ensures !outcome.Idle? ==> Next(old(store), job, now)
      ensures !outcome.Idle? ==>
        && job in old(store).jobs && old(store).jobs[job].nextAttempt <= now
        && forall o | o in old(store).jobs && !Claimed(old(store), o) && old(store).jobs[o].nextAttempt <= now ::
             old(store).jobs[job].nextAttempt <= old(store).jobs[o].nextAttempt
      ensures outcome.Gone? <==> !outcome.Idle? && gone
      ensures outcome.Gone? ==> store.jobs == old(store).jobs - {job} && store.objects == old(store).objects - {old(store).jobs[job].key}
                                && old(store).jobs[job].key !in store.rows
      ensures outcome.Retry? ==> store.objects == old(store).objects && store.jobs == old(store).jobs[job := Deferred(old(store).jobs[job], now)]
      ensures store.nextJob == old(store).nextJob
    {
      job := 0;
      var due := set j | j in store.jobs && Due(store, j, now);
      if due == {} {
        assert forall j | j in store.jobs && Due(store, j, now) :: j in due;
        return Idle, 0;
      }
      ghost var first := SomeNext(store, due, now);
      var j :| j in due && Next(store, j, now);
      job := j;
      assert store.jobs[j].key in store.dropped && store.jobs[j].key !in store.rows;
      PassShape(store, worker, j, now, gone);
      hide Inv, After, Claimed;
      Take(Claim(worker, j, now));
      Take(Delete(worker, gone));
      Take(Finish(worker, true, now));
      return if gone then Gone else Retry, job;
    }

    /** Whatever other requests and workers do between two passes. */
    method Interleave(worker: nat, steps: seq<Step>)
      requires Inv(store) && worker !in store.workers
      modifies this
      ensures Inv(store) && worker !in store.workers
      ensures |store.jobs| - store.nextJob <= |old(store).jobs| - old(store).nextJob
    {
      var k := 0;
      while k < |steps|
        invariant k <= |steps| && Inv(store) && worker !in store.workers
        invariant |store.jobs| - store.nextJob <= |old(store).jobs| - old(store).nextJob
      {
        if Enabled(store, steps[k]) && (steps[k].Claim? ==> steps[k].worker != worker) {
          JobsBalance(store, steps[k]);
          OtherWorker(store, steps[k], worker);
          Take(steps[k]);
        }
        k := k + 1;
      }
    }

    /**
     Passes until one consumes no job, with any steps of others in between. It ends, and the jobs
     consumed are at most those present plus those queued meanwhile.
     */
    method Drain(worker: nat, clock: nat -> Time, gone: nat -> bool, others: seq<seq<Step>>) returns (passes: nat)
      requires Inv(store) && worker !in store.workers
      modifies this
      ensures Inv(store) && worker !in store.workers
      ensures passes + |store.jobs| <= |old(store).jobs| + (store.nextJob - old(store).nextJob)
    {
      passes := 0;
      while true
        invariant Inv(store) && worker !in store.workers
        invariant passes + |store.jobs| - store.nextJob <= |old(store).jobs| - old(store).nextJob
        decreases if passes < |others| then |others| - passes else 0, |store.jobs|
      {
        hide Inv;
        ghost var before := store.jobs;
        var outcome, job := CleanupNext(worker, clock(passes), gone(passes));
        if outcome.Retry? { SameSizes(before, store.jobs); }
        if !outcome.Gone? {
          return;
        }
        OneLarger(store.jobs, before, job);
        if passes < |others| {
          Interleave(worker, others[passes]);
        }
        passes := passes + 1;
      }
    }
  }

  lemma OtherWorker(s: Store, e: Step, worker: nat)
    requires Enabled(s, e) && worker !in s.workers && (e.Claim? ==> e.worker != worker)
    ensures worker !in After(s, e).workers
  {
    if ActingSession(e).Some? { WorldSessions(s, Acting(s, e), e); }
  }
}
