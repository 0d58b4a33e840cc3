/** Accounts, court roles and the administrators who change them, each change under both row locks. */
module Administration {
  import opened Common

  datatype UserType = Attorney | SelfRepresented | PublicViewer | Clerk | Judge | SystemAdmin
  datatype Role = ClerkRole | JudgeRole | AdminRole

  datatype Profile = Profile(name: string, email: string, userType: UserType, subject: Option<string>, active: bool,
                             bar: Option<string>, barVerified: bool)

  datatype User = User(profile: Profile, verified: Option<string>, version: nat)
  datatype Grant = Grant(user: nat, court: nat, role: Role)

  datatype State = State(users: map<nat, User>, nextUser: nat, grants: set<Grant>)

  datatype Reply = Ok | Unchanged | Refused(status: nat)

  predicate IsAdmin(s: State, id: nat) {
    id in s.users && s.users[id].profile.active && s.users[id].profile.userType.SystemAdmin?
  }

  predicate StaffType(t: UserType) {
    t.Clerk? || t.Judge? || t.SystemAdmin?
  }

  predicate HoldsRoles(s: State, id: nat) {
    exists g | g in s.grants :: g.user == id
  }

  predicate EmailTaken(s: State, email: string, except: Option<nat>) {
    exists id | id in s.users :: Some(id) != except && s.users[id].profile.email == email
  }

  /** An active account is bound to the identity provider, except in a demonstration. */
  predicate Bound(demo: bool, p: Profile) {
    p.active ==> p.subject.Some? || demo
  }

  // ---------------------------------------------------------------- changes

  function AddUser(s: State, p: Profile, verified: Option<string>): State {
    s.(users := s.users[s.nextUser := User(p, verified, 0)], nextUser := s.nextUser + 1)
  }

  function CreateAccount(demo: bool, s: State, actor: nat, p: Profile): (State, Reply) {
    if !IsAdmin(s, actor) then (s, Refused(403))
    else if !Bound(demo, p) then (s, Refused(422))
    else if EmailTaken(s, p.email, None) then (s, Refused(409))
    else (AddUser(s, p, None), Ok)
  }

  function UpdateAccount(demo: bool, s: State, actor: nat, id: nat, p: Profile, expected: nat): (State, Reply) {
    if !IsAdmin(s, actor) then (s, Refused(403))
    else if id !in s.users then (s, Refused(404))
    else
      var user := s.users[id];
      if user.version != expected then (s, Refused(409))
      else if !Bound(demo, p) then (s, Refused(422))
      else if actor == id && (p.userType != user.profile.userType || !p.active || p.subject != user.profile.subject) then (s, Refused(409))
      else if EmailTaken(s, p.email, Some(id)) then (s, Refused(409))
      else if (p.userType != user.profile.userType || p.subject != user.profile.subject) && HoldsRoles(s, id) then (s, Refused(409))
      else if user.profile == p then (s, Unchanged)
      else
        var keeps := user.profile.email == p.email && user.profile.subject == p.subject && p.active;
        (s.(users := s.users[id := User(p, if keeps then user.verified else None, expected + 1)]), Ok)
  }

  predicate CourtAdmin(s: State, actor: nat, court: nat) {
    actor in s.users && s.users[actor].profile.active && (s.users[actor].profile.userType.SystemAdmin? || Grant(actor, court, AdminRole) in s.grants)
  }

  function ChangeRole(demo: bool, s: State, actor: nat, id: nat, court: nat, role: Role, give: bool, expected: nat): (State, Reply) {
    if !CourtAdmin(s, actor, court) then (s, Refused(403))
    else if id !in s.users then (s, Refused(404))
    else
      var user := s.users[id];
      var g := Grant(id, court, role);
      if actor == id || user.version != expected then (s, Refused(409))
      else if !s.users[actor].profile.userType.SystemAdmin? && (role.AdminRole? || user.profile.userType.SystemAdmin?) then (s, Refused(403))
      else if give && (!user.profile.active || !StaffType(user.profile.userType)) then (s, Refused(422))
      else if give && user.profile.subject.None? && !demo then (s, Refused(422))
      else if give && role.JudgeRole? && !user.profile.userType.Judge? then (s, Refused(422))
      else if give == (g in s.grants) then (s, Unchanged)
      else (s.(users := s.users[id := user.(version := expected + 1)], grants := if give then s.grants + {g} else s.grants - {g}), Ok)
  }

  /** A first sign-in creates an ordinary account, or binds an unprivileged one with the same verified email. */
  function Provision(s: State, subject: string, email: string, name: string): State {
    if !EmailTaken(s, email, None) then AddUser(s, Profile(name, email, SelfRepresented, Some(subject), true, None, false), Some(email))
    else s
  }

  function BindSubject(s: State, id: nat, subject: string): State {
    if id in s.users && s.users[id].profile.subject.None? && !StaffType(s.users[id].profile.userType) && s.users[id].profile.bar.None? then
      s.(users := s.users[id := s.users[id].(profile := s.users[id].profile.(subject := Some(subject)), verified := Some(s.users[id].profile.email))])
    else s
  }

  datatype Change =
    | Create(actor: nat, profile: Profile)
    | Update(actor: nat, id: nat, profile: Profile, expected: nat)
    | SetRole(actor: nat, id: nat, court: nat, role: Role, give: bool, expected: nat)
    | FirstSignIn(subject: string, email: string, name: string)
    | Bind(id: nat, subject: string)

  function After(demo: bool, s: State, c: Change): State {
    match c
    case Create(actor, profile) => CreateAccount(demo, s, actor, profile).0
    case Update(actor, id, profile, expected) => UpdateAccount(demo, s, actor, id, profile, expected).0
    case SetRole(actor, id, court, role, give, expected) => ChangeRole(demo, s, actor, id, court, role, give, expected).0
    case FirstSignIn(subject, email, name) => Provision(s, subject, email, name)
    case Bind(id, subject) => BindSubject(s, id, subject)
  }

  // ---------------------------------------------------------------- invariants

  ghost predicate UsersOk(demo: bool, s: State) {
    forall id | id in s.users :: id < s.nextUser && Bound(demo, s.users[id].profile)
                                 && (s.users[id].verified.Some? ==> s.users[id].verified.value == s.users[id].profile.email)
  }

  /** Court roles belong to staff accounts, and judge roles to judges. */
  ghost predicate GrantsOk(s: State) {
    forall g | g in s.grants :: g.user in s.users && StaffType(s.users[g.user].profile.userType)
                                && (g.role.JudgeRole? ==> s.users[g.user].profile.userType.Judge?)
  }

  ghost predicate EmailsOk(s: State) {
    forall a, b | a in s.users && b in s.users && a != b :: s.users[a].profile.email != s.users[b].profile.email
  }

  ghost predicate Inv(demo: bool, s: State) {
    UsersOk(demo, s) && GrantsOk(s) && EmailsOk(s)
  }

  /** Versions never go back, and an unchanged version means an unchanged profile, but for binding a subject. */
  ghost predicate Grows(s: State, t: State) {
    forall id | id in s.users ::
      && id in t.users && s.users[id].version <= t.users[id].version
      && (s.users[id].version == t.users[id].version ==>
            s.users[id].profile == t.users[id].profile || s.users[id].profile.subject.None?)
  }

  lemma AddKeeps(demo: bool, s: State, p: Profile, verified: Option<string>)
    requires Inv(demo, s) && Bound(demo, p) && !EmailTaken(s, p.email, None) && (verified.Some? ==> verified.value == p.email)
    ensures Inv(demo, AddUser(s, p, verified)) && Grows(s, AddUser(s, p, verified))
  {
  }

  lemma EmailsKept(s: State, t: State, id: nat, u: User)
    requires EmailsOk(s) && id in s.users && t.users == s.users[id := u]
    requires u.profile.email == s.users[id].profile.email || !EmailTaken(s, u.profile.email, Some(id))
    ensures EmailsOk(t)
  {
  }

  lemma SetUser(demo: bool, s: State, t: State, id: nat, u: User)
    requires Inv(demo, s) && id in s.users && t.users == s.users[id := u] && t.nextUser == s.nextUser && Bound(demo, u.profile) && GrantsOk(t)
    requires u.profile.email == s.users[id].profile.email || !EmailTaken(s, u.profile.email, Some(id))
    requires u.verified.Some? ==> u.verified.value == u.profile.email
    requires s.users[id].version < u.version || (s.users[id].version == u.version && s.users[id].profile.subject.None?)
    ensures Inv(demo, t) && Grows(s, t)
  {
    EmailsKept(s, t, id, u);
    hide EmailsOk, GrantsOk, EmailTaken;
  }

  lemma UpdateKeeps(demo: bool, s: State, actor: nat, id: nat, p: Profile, expected: nat)
    requires Inv(demo, s)
    ensures var t := UpdateAccount(demo, s, actor, id, p, expected).0; Inv(demo, t) && Grows(s, t)
  {
    hide EmailsOk, EmailTaken;
    var t := UpdateAccount(demo, s, actor, id, p, expected).0;
    if t != s {
      assert forall g | g in s.grants && g.user == id :: HoldsRoles(s, id);
      SetUser(demo, s, t, id, t.users[id]);
    }
  }

  lemma RoleKeeps(demo: bool, s: State, actor: nat, id: nat, court: nat, role: Role, give: bool, expected: nat)
    requires Inv(demo, s)
    ensures var t := ChangeRole(demo, s, actor, id, court, role, give, expected).0; Inv(demo, t) && Grows(s, t)
  {
    hide EmailsOk, EmailTaken;
    var t := ChangeRole(demo, s, actor, id, court, role, give, expected).0;
    if t != s { SetUser(demo, s, t, id, t.users[id]); }
  }

  lemma BindKeeps(demo: bool, s: State, id: nat, subject: string)
    requires Inv(demo, s)
    ensures Inv(demo, BindSubject(s, id, subject)) && Grows(s, BindSubject(s, id, subject))
  {
    hide EmailsOk, EmailTaken;
    var t := BindSubject(s, id, subject);
    if t != s { SetUser(demo, s, t, id, t.users[id]); }
  }

  lemma ChangeKeeps(demo: bool, s: State, c: Change)
    requires Inv(demo, s)
    ensures Inv(demo, After(demo, s, c)) && Grows(s, After(demo, s, c))
  {
    hide Inv, UpdateAccount, ChangeRole, BindSubject, AddUser, EmailTaken;
    match c
    case Create(actor, profile) =>
      if After(demo, s, c) != s { AddKeeps(demo, s, profile, None); }
    case Update(actor, id, profile, expected) => UpdateKeeps(demo, s, actor, id, profile, expected);
    case SetRole(actor, id, court, role, give, expected) => RoleKeeps(demo, s, actor, id, court, role, give, expected);
    case FirstSignIn(subject, email, name) =>
      if !EmailTaken(s, email, None) { AddKeeps(demo, s, Profile(name, email, SelfRepresented, Some(subject), true, None, false), Some(email)); }
    case Bind(id, subject) => BindKeeps(demo, s, id, subject);
  }

  /** Whoever makes a change is still an administrator after it. */
  lemma ActorStays(demo: bool, s: State, c: Change, a: nat)
    requires Inv(demo, s) && IsAdmin(s, a)
    ensures IsAdmin(After(demo, s, c), a) || (c.Update? && c.id == a && c.actor != a && IsAdmin(s, c.actor) && IsAdmin(After(demo, s, c), c.actor))
  {
  }

  ghost predicate SomeAdmin(s: State) {
    exists a :: IsAdmin(s, a)
  }

  ghost predicate Step(demo: bool, s: State, t: State) {
    exists c :: t == After(demo, s, c)
  }

  ghost predicate Run(demo: bool, r: seq<State>) {
    r != [] && Inv(demo, r[0]) && forall i | 0 <= i < |r| - 1 :: Step(demo, r[i], r[i + 1])
  }

  lemma {:induction false} RunInv(demo: bool, r: seq<State>, x: nat)
    requires Run(demo, r) && x < |r|
    ensures Inv(demo, r[x])
  {
    hide Inv, After;
    if x > 0 {
      RunInv(demo, r, x - 1);
      assert Step(demo, r[x - 1], r[x - 1 + 1]);
      var c :| r[x] == After(demo, r[x - 1], c);
      ChangeKeeps(demo, r[x - 1], c);
    }
  }

  /** Once there is an active system administrator there always is one, whatever administrators do to each other. */
  lemma {:induction false} AdministratorRemains(demo: bool, r: seq<State>, i: nat, j: nat)
    requires Run(demo, r) && i <= j < |r| && SomeAdmin(r[i])
    ensures SomeAdmin(r[j])
  {
    hide Inv, After, IsAdmin;
    if i < j {
      AdministratorRemains(demo, r, i, j - 1);
      RunInv(demo, r, j - 1);
      assert Step(demo, r[j - 1], r[j - 1 + 1]);
      var c :| r[j] == After(demo, r[j - 1], c);
      var a :| IsAdmin(r[j - 1], a);
      ActorStays(demo, r[j - 1], c, a);
    }
  }

  /** In every reachable state staff roles belong to staff accounts and judge roles to judges. */
  lemma RolesFitAccounts(demo: bool, r: seq<State>, x: nat, g: Grant)
    requires Run(demo, r) && x < |r| && g in r[x].grants
    ensures g.user in r[x].users && StaffType(r[x].users[g.user].profile.userType)
    ensures g.role.JudgeRole? ==> r[x].users[g.user].profile.userType.Judge?
  {
    RunInv(demo, r, x);
  }

  /** Accounts are never lost and their versions never fall. */
  lemma {:induction false} VersionsOnlyRise(demo: bool, r: seq<State>, i: nat, j: nat, id: nat)
    requires Run(demo, r) && i <= j < |r| && id in r[i].users
    ensures id in r[j].users && r[i].users[id].version <= r[j].users[id].version
  {
    hide Inv, After;
    if i < j {
      VersionsOnlyRise(demo, r, i, j - 1, id);
      RunInv(demo, r, j - 1);
      assert Step(demo, r[j - 1], r[j - 1 + 1]);
      var c :| r[j] == After(demo, r[j - 1], c);
      ChangeKeeps(demo, r[j - 1], c);
    }
  }

  /** An edit or role change raises its account's version above the one it saw. */
  predicate Applied(demo: bool, s: State, c: Change) {
    match c
    case Update(actor, id, p, expected) => UpdateAccount(demo, s, actor, id, p, expected).1.Ok?
    case SetRole(actor, id, court, role, give, expected) => ChangeRole(demo, s, actor, id, court, role, give, expected).1.Ok?
    case _ => false
  }

  lemma AppliedRaises(demo: bool, s: State, c: Change)
    requires Applied(demo, s, c)
    ensures c.id in s.users && s.users[c.id].version == c.expected
    ensures c.id in After(demo, s, c).users && After(demo, s, c).users[c.id].version == c.expected + 1
  {
  }

  /** One expected version of an account has at most one successful edit or role change in a run, whatever happens in between. */
  lemma OneEditPerVersion(demo: bool, r: seq<State>, i: nat, j: nat, c: Change, d: Change)
    requires Run(demo, r) && i < j < |r| && Applied(demo, r[i], c) && r[i + 1] == After(demo, r[i], c)
    requires (d.Update? || d.SetRole?) && d.id == c.id && d.expected == c.expected
    ensures !Applied(demo, r[j], d)
  {
    AppliedRaises(demo, r[i], c);
    VersionsOnlyRise(demo, r, i + 1, j, c.id);
    if Applied(demo, r[j], d) { AppliedRaises(demo, r[j], d); }
  }

  /** In every reachable state a verified address is the account's own, each address has one account, and active accounts are bound. */
  lemma VerifiedIsCurrent(demo: bool, r: seq<State>, x: nat, a: nat, b: nat)
    requires Run(demo, r) && x < |r| && a in r[x].users && b in r[x].users
    ensures r[x].users[a].verified.Some? ==> r[x].users[a].verified == Some(r[x].users[a].profile.email)
    ensures r[x].users[a].profile.email == r[x].users[b].profile.email ==> a == b
    ensures r[x].users[a].profile.active && !demo ==> r[x].users[a].profile.subject.Some?
  {
    RunInv(demo, r, x);
    hide Run;
  }

  /**
   An account is edited exactly by an active system administrator, at the version they saw, with an
   address of its own; not their own type, activity or identity, and not those of one holding roles.
   */
  lemma EditedIff(demo: bool, s: State, actor: nat, id: nat, p: Profile, expected: nat)
    ensures UpdateAccount(demo, s, actor, id, p, expected).1 == Ok <==>
              && actor in s.users && s.users[actor].profile.active && s.users[actor].profile.userType == SystemAdmin
              && id in s.users && s.users[id].version == expected && s.users[id].profile != p
              && (p.active && !demo ==> p.subject.Some?)
              && (actor == id ==> p.active && p.userType == SystemAdmin && p.subject == s.users[id].profile.subject)
              && (forall o | o in s.users && o != id :: s.users[o].profile.email != p.email)
              && ((exists g | g in s.grants :: g.user == id) ==> p.userType == s.users[id].profile.userType && p.subject == s.users[id].profile.subject)
  {
  }

  /** The profile is as written, and an address stays verified only with the same address and identity on an active account. */
  lemma EditedProfile(demo: bool, s: State, actor: nat, id: nat, p: Profile, expected: nat)
    requires UpdateAccount(demo, s, actor, id, p, expected).1 == Ok
    ensures var t := UpdateAccount(demo, s, actor, id, p, expected).0;
            && id in s.users && t == s.(users := s.users[id := t.users[id]]) && t.users[id].profile == p && t.users[id].version == s.users[id].version + 1
            && (t.users[id].verified.Some? ==> p.active && p.email == s.users[id].profile.email && p.subject == s.users[id].profile.subject)
            && (p.active && p.email == s.users[id].profile.email && p.subject == s.users[id].profile.subject ==> t.users[id].verified == s.users[id].verified)
  {
  }

  /** May this administrator touch that role of that account? Only a system administrator makes court administrators or touches system administrators. */
  predicate Outranks(s: State, actor: nat, id: nat, court: nat, role: Role)
    requires id in s.users
  {
    && actor in s.users && s.users[actor].profile.active && actor != id
    && (s.users[actor].profile.userType == SystemAdmin
        || (Grant(actor, court, AdminRole) in s.grants && role != AdminRole && s.users[id].profile.userType != SystemAdmin))
  }

  /** A role is given only to an active, bound staff account, a judge's only to a judge, and each change is made once. */
  lemma RoleChangedIff(demo: bool, s: State, actor: nat, id: nat, court: nat, role: Role, give: bool, expected: nat)
    requires id in s.users
    ensures var (t, reply) := ChangeRole(demo, s, actor, id, court, role, give, expected);
            && (reply == Ok <==>
                  && Outranks(s, actor, id, court, role) && s.users[id].version == expected && (give <==> Grant(id, court, role) !in s.grants)
                  && (give ==> s.users[id].profile.active && s.users[id].profile.userType in {Clerk, Judge, SystemAdmin}
                               && (s.users[id].profile.subject.Some? || demo) && (role == JudgeRole ==> s.users[id].profile.userType == Judge)))
            && (reply == Ok ==> forall g :: g in t.grants <==> if g == Grant(id, court, role) then give else g in s.grants)
            && (reply == Ok ==> t.users == s.users[id := s.users[id].(version := expected + 1)])
  {
  }

  // ---------------------------------------------------------------- the directory

  class Directory {
    var users: map<nat, User>
    var nextUser: nat
    var grants: set<Grant>

    function Tables(): State
      reads this
    {
      State(users, nextUser, grants)
    }

    method UpdateProfile(demo: bool, actor: nat, id: nat, p: Profile, expected: nat) returns (reply: Reply)
      modifies this
      ensures (Tables(), reply) == UpdateAccount(demo, old(Tables()), actor, id, p, expected)
    {
      if actor !in users || !users[actor].profile.active || !users[actor].profile.userType.SystemAdmin? {
        return Refused(403);
      }
      if id !in users {
        return Refused(404);
      }
      var user := users[id];
      if user.version != expected {
        return Refused(409);
      }
      if p.active && p.subject.None? && !demo {
        return Refused(422);
      }
      if actor == id && (p.userType != user.profile.userType || !p.active || p.subject != user.profile.subject) {
        return Refused(409);
      }
      if EmailTaken(Tables(), p.email, Some(id)) {
        return Refused(409);
      }
      if (p.userType != user.profile.userType || p.subject != user.profile.subject) && HoldsRoles(Tables(), id) {
        return Refused(409);
      }
      if user.profile == p {
        return Unchanged;
      }
      user := user.(version := expected + 1);
      if user.profile.email != p.email || user.profile.subject != p.subject || !p.active {
        user := user.(verified := None);
      }
      users := users[id := user.(profile := p)];
      return Ok;
    }

    method ChangeCourtRole(demo: bool, actor: nat, id: nat, court: nat, role: Role, give: bool, expected: nat) returns (reply: Reply)
      modifies this
      ensures (Tables(), reply) == ChangeRole(demo, old(Tables()), actor, id, court, role, give, expected)
    {
      if !CourtAdmin(Tables(), actor, court) {
        return Refused(403);
      }
      if id !in users {
        return Refused(404);
      }
      var user := users[id];
      if actor == id || user.version != expected {
        return Refused(409);
      }
      if !users[actor].profile.userType.SystemAdmin? && (role.AdminRole? || user.profile.userType.SystemAdmin?) {
        return Refused(403);
      }
      if give {
        if !user.profile.active || !StaffType(user.profile.userType) || (user.profile.subject.None? && !demo) {
          return Refused(422);
        }
        if role.JudgeRole? && !user.profile.userType.Judge? {
          return Refused(422);
        }
      }
      var g := Grant(id, court, role);
      if give == (g in grants) {
        return Unchanged;
      }
      users := users[id := user.(version := expected + 1)];
      if give {
        grants := grants + {g};
      } else {
        grants := grants - {g};
      }
      return Ok;
    }
  }
}
