// The Discord onboarding chain: /verify spends the token mailed with an
// invitation and marks the member's Discord id as verified; /register then
// checks the Minecraft name against Mojang, whitelists it, inserts the user
// and swaps the member's unverified role for the player role. /link attaches
// a Discord id to an existing user row that has none.
module Onboarding {
  import opened Wrappers
  import opened Db
  import Forms

  /** The waitlist rows whose invitation token is `token` (a row without a token matches nothing). */
  function TokenRows(w: map<int, WaitlistEntry>, token: string): set<int>
  {
    set id | id in w && w[id].token == Some(token)
  }

  datatype VerifyOutcome = NotEligible | InvalidToken | Verified

  /** /verify: the member must still hold the unverified role and the token must be known; then its rows are deleted and the Discord id is recorded as verified. */
  function Verify(w: map<int, WaitlistEntry>, verified: set<string>, hasUnverified: bool, token: string, discordId: string)
    : (map<int, WaitlistEntry>, set<string>, VerifyOutcome)
  {
    if !hasUnverified then (w, verified, NotEligible)
    else if TokenRows(w, token) == {} then (w, verified, InvalidToken)
    else (map id | id in w && w[id].token != Some(token) :: w[id], verified + {discordId}, Verified)
  }

  /** Refusals change nothing; success removes exactly the token's rows and adds the Discord id, keeping one already there. */
  lemma VerifyRule(w: map<int, WaitlistEntry>, verified: set<string>, hasUnverified: bool, token: string, discordId: string)
    ensures var (w', verified', o) := Verify(w, verified, hasUnverified, token, discordId);
            && (o == NotEligible <==> !hasUnverified)
            && (o == InvalidToken <==> hasUnverified && TokenRows(w, token) == {})
            && (o != Verified ==> w' == w && verified' == verified)
            && (o == Verified ==> w'.Keys == w.Keys - TokenRows(w, token) && verified' == verified + {discordId})
            && (forall id | id in w' :: w'[id] == w[id])
  {
  }

  /** A token works once: after a successful /verify the same token is unknown. */
  lemma TokenSingleUse(w: map<int, WaitlistEntry>, verified: set<string>, token: string, discordId: string, otherId: string)
    ensures var (w', verified', o) := Verify(w, verified, true, token, discordId);
            o == Verified ==> TokenRows(w', token) == {} && Verify(w', verified', true, token, otherId).2 == InvalidToken
  {
  }

  /** Deleting rows keeps the waitlist's uniqueness of e-mails and Discord names. */
  lemma VerifyKeepsWaitlistValid(w: map<int, WaitlistEntry>, nextId: int, verified: set<string>, hasUnverified: bool, token: string, discordId: string)
    requires Forms.WaitlistValid(w, nextId)
    ensures Forms.WaitlistValid(Verify(w, verified, hasUnverified, token, discordId).0, nextId)
  {
  }

  datatype LinkOutcome = AlreadyLinked | NotFoundOrLinked | Linked

  /** The rows /link may update: named exactly `mcName` and not linked yet. */
  function Unlinked(users: map<string, User>, mcName: string): set<string>
  {
    set u | u in users && users[u].name == mcName && users[u].discordId.None?
  }

  /** /link: refused when the Discord id is already on a row; otherwise every unlinked row named `mcName` takes it, and none means refusal. */
  function Link(users: map<string, User>, mcName: string, discordId: string): (map<string, User>, LinkOutcome)
  {
    if LinkedTo(users, discordId) != {} then (users, AlreadyLinked)
    else if Unlinked(users, mcName) == {} then (users, NotFoundOrLinked)
    else (map u | u in users :: if u in Unlinked(users, mcName) then users[u].(discordId := Some(discordId)) else users[u], Linked)
  }

  /** The refusals change nothing; success links exactly the unlinked rows of that name and touches no other row or column. */
  lemma LinkRule(users: map<string, User>, mcName: string, discordId: string)
    ensures var (users', o) := Link(users, mcName, discordId);
            && (o == AlreadyLinked <==> LinkedTo(users, discordId) != {})
            && (o == NotFoundOrLinked <==> LinkedTo(users, discordId) == {} && Unlinked(users, mcName) == {})
            && (o != Linked ==> users' == users)
            && users'.Keys == users.Keys
            && (o == Linked ==> LinkedTo(users', discordId) == Unlinked(users, mcName))
            && (forall u | u in users' && u !in Unlinked(users, mcName) :: users'[u] == users[u])
            && (forall u | u in users' :: users'[u] == users[u].(discordId := users'[u].discordId))
  {
    var (users', o) := Link(users, mcName, discordId);
    if o == Linked {
      forall u | u in users'
        ensures users'[u].discordId == Some(discordId) <==> u in Unlinked(users, mcName)
      {
        assert users[u].discordId == Some(discordId) ==> u in LinkedTo(users, discordId);
      }
    }
  }

  /** Each Discord id is on at most one user row. */
  predicate OneLinkPerAccount(users: map<string, User>)
  {
    forall a, b | a in users && b in users && a != b && users[a].discordId.Some? :: users[a].discordId != users[b].discordId
  }

  /** Minecraft names are unique among the rows. */
  predicate NamesUnique(users: map<string, User>)
  {
    forall a, b | a in users && b in users && a != b :: users[a].name != users[b].name
  }

  /** With unique names, /link keeps every Discord id on at most one row. */
  lemma LinkKeepsOneLinkPerAccount(users: map<string, User>, mcName: string, discordId: string)
    requires OneLinkPerAccount(users) && NamesUnique(users)
    ensures OneLinkPerAccount(Link(users, mcName, discordId).0)
  {
    var (users', o) := Link(users, mcName, discordId);
    if o == Linked {
      var m := Unlinked(users, mcName);
      forall a, b | a in users' && b in users' && a != b && users'[a].discordId.Some?
        ensures users'[a].discordId != users'[b].discordId
      {
        if a in m && b in m {
          assert false;
        } else if a in m {
          assert users'[b] == users[b];
          assert users[b].discordId != Some(discordId) by {
            assert b !in LinkedTo(users, discordId);
          }
        } else if b in m {
          assert users'[a] == users[a];
          assert a !in LinkedTo(users, discordId);
        }
      }
    }
  }

  /** What Mojang's profile lookup returns for a name that exists: the UUID and the name in its proper case. */
  datatype Profile = Profile(uuid: string, correctName: string)

  /** The steps of /register's `try` block after the guards, in the source's order; a failing step throws to the `catch`. */
  datatype RegisterStep =
    | MojangLookup        // the Mojang profile fetch or the UUID lookup in users
    | WhitelistAdd        // the RCON connection or `whitelist add`
    | UserInsert          // the INSERT into users
    | VerificationDelete  // the DELETE from verified_discords
    | MemberFetch         // the guild member fetch
    | RoleRemove          // removing the unverified role
    | RoleAdd             // adding the player role

  /** How many of the four writes (whitelist, user row, verification, unverified role) are done when `step` throws. */
  function WritesBefore(step: RegisterStep): (n: nat)
    ensures n <= 4
  {
    match step
    case MojangLookup => 0
    case WhitelistAdd => 0
    case UserInsert => 1
    case VerificationDelete => 2
    case MemberFetch => 3
    case RoleRemove => 3
    case RoleAdd => 4
  }

  /**
   * `RegisterFailed` is the `catch` path: it reads the undefined `err`, so
   * neither the staff notification nor the reply goes out, and whatever the
   * steps before the failing one wrote stays written.
   */
  datatype RegisterOutcome =
    | RegisterNotEligible
    | NotVerified
    | NoSuchAccount
    | AlreadyRegistered(name: string)
    | Registered(name: string)
    | RegisterFailed(step: RegisterStep)

  /** The member's Discord-side state that /register changes: its roles. */
  datatype Roles = Roles(unverified: bool, player: bool)

  /** The state /register reads and writes: the two tables, the member's roles and the server's whitelist. */
  datatype RegisterState = RegisterState(users: map<string, User>, verified: set<string>, roles: Roles, whitelist: set<string>)

  /** Staff are told of an unknown name and of a UUID already registered. */
  predicate StaffNotified(o: RegisterOutcome)
  {
    o.NoSuchAccount? || o.AlreadyRegistered?
  }

  /** The row /register inserts. */
  function NewUser(p: Profile, discordId: string): User
  {
    User(p.correctName, Some(discordId), false, None, None, PlayTimeDefault)
  }

  /** The state after the first `n` writes of a registration, in the source's order; all six steps give the player role as well. */
  function Written(s: RegisterState, discordId: string, p: Profile, n: nat, finished: bool): RegisterState
  {
    RegisterState(
      if n >= 2 then s.users[p.uuid := NewUser(p, discordId)] else s.users,
      if n >= 3 then s.verified - {discordId} else s.verified,
      Roles(if n >= 4 then false else s.roles.unverified, if finished then true else s.roles.player),
      if n >= 1 then s.whitelist + {p.correctName} else s.whitelist)
  }

  /** /register; `profile` is Mojang's answer for the requested name (None when the response is not ok), and `fail` the step that throws, if any. */
  function Register(s: RegisterState, discordId: string, profile: Option<Profile>, fail: Option<RegisterStep>): (RegisterState, RegisterOutcome)
  {
    if !s.roles.unverified then (s, RegisterNotEligible)
    else if discordId !in s.verified then (s, NotVerified)
    else if fail == Some(MojangLookup) then (s, RegisterFailed(MojangLookup))
    else if profile.None? then (s, NoSuchAccount)
    else if profile.value.uuid in s.users then (s, AlreadyRegistered(profile.value.correctName))
    else if fail.Some? then (Written(s, discordId, profile.value, WritesBefore(fail.value), false), RegisterFailed(fail.value))
    else (Written(s, discordId, profile.value, 4, true), Registered(profile.value.correctName))
  }

  /** The guard ladder: each refusal leaves tables, roles and whitelist alone; success whitelists the proper name, inserts it offline with no times, spends the verification and swaps the roles. */
  lemma RegisterRule(s: RegisterState, discordId: string, profile: Option<Profile>, fail: Option<RegisterStep>)
    ensures var (s', o) := Register(s, discordId, profile, fail);
            && (o == RegisterNotEligible <==> !s.roles.unverified)
            && (o == NotVerified <==> s.roles.unverified && discordId !in s.verified)
            && (o == NoSuchAccount <==> s.roles.unverified && discordId in s.verified && fail != Some(MojangLookup) && profile.None?)
            && (o.AlreadyRegistered? <==> s.roles.unverified && discordId in s.verified && fail != Some(MojangLookup) && profile.Some? && profile.value.uuid in s.users)
            && (o.Registered? <==> s.roles.unverified && discordId in s.verified && fail.None? && profile.Some? && profile.value.uuid !in s.users)
            && (!o.Registered? && !o.RegisterFailed? ==> s' == s)
            && (o.Registered? ==>
                  && s'.users == s.users[profile.value.uuid := User(profile.value.correctName, Some(discordId), false, None, None, Some(0))]
                  && s'.verified == s.verified - {discordId}
                  && s'.roles == Roles(false, true)
                  && s'.whitelist == s.whitelist + {profile.value.correctName})
  {
  }

  /**
   * A failing step keeps what the steps before it wrote: the name stays
   * whitelisted once RCON succeeded, the user row stays once inserted, the
   * verification stays spent once deleted, and the player role is never given.
   */
  lemma RegisterFailureRule(s: RegisterState, discordId: string, profile: Option<Profile>, fail: Option<RegisterStep>)
    ensures var (s', o) := Register(s, discordId, profile, fail);
            o.RegisterFailed? ==>
              && fail == Some(o.step)
              && s'.roles.player == s.roles.player
              && (o.step == MojangLookup || o.step == WhitelistAdd ==> s' == s)
              && (o.step != MojangLookup && o.step != WhitelistAdd ==>
                    && profile.Some? && profile.value.uuid !in s.users
                    && s'.whitelist == s.whitelist + {profile.value.correctName}
                    && (profile.value.uuid in s'.users <==> o.step != UserInsert)
                    && (discordId in s'.verified <==> o.step == UserInsert || o.step == VerificationDelete)
                    && (s'.roles.unverified <==> o.step != RoleAdd))
  {
  }

  /** A failure after the verification was spent leaves the member stuck: a retry is refused as not verified, or as not eligible once the unverified role is gone, and the player role is still not given. */
  lemma FailedRegisterIsStuck(s: RegisterState, discordId: string, profile: Option<Profile>, fail: Option<RegisterStep>, profile2: Option<Profile>, fail2: Option<RegisterStep>)
    requires Register(s, discordId, profile, fail).1 in {RegisterFailed(MemberFetch), RegisterFailed(RoleRemove), RegisterFailed(RoleAdd)}
    ensures var (s', o) := Register(s, discordId, profile, fail);
            var (s'', o2) := Register(s', discordId, profile2, fail2);
            && s'' == s' && s''.roles.player == s.roles.player
            && o2 == (if o.step == RoleAdd then RegisterNotEligible else NotVerified)
  {
  }

  /** A failure between the insert and the deletion keeps the verification but blocks the same account: a retry with it is refused as already registered. */
  lemma FailedDeleteBlocksSameAccount(s: RegisterState, discordId: string, p: Profile, fail2: Option<RegisterStep>)
    requires Register(s, discordId, Some(p), Some(VerificationDelete)).1 == RegisterFailed(VerificationDelete)
    ensures var s' := Register(s, discordId, Some(p), Some(VerificationDelete)).0;
            fail2 != Some(MojangLookup) ==> Register(s', discordId, Some(p), fail2) == (s', AlreadyRegistered(p.correctName))
  {
  }

  /** A registration cannot be repeated: the member no longer holds the unverified role. */
  lemma RegisterOnce(s: RegisterState, discordId: string, profile: Option<Profile>, profile2: Option<Profile>, fail2: Option<RegisterStep>)
    ensures var (s', o) := Register(s, discordId, profile, None);
            o.Registered? ==> Register(s', discordId, profile2, fail2) == (s', RegisterNotEligible)
  {
  }

  /** The chain: a successful /verify followed by /register of a Minecraft account not yet in `users` registers it when no step fails. */
  lemma VerifyThenRegister(w: map<int, WaitlistEntry>, s: RegisterState, token: string, discordId: string, p: Profile)
    requires s.roles.unverified && p.uuid !in s.users
    ensures var (_, verified', o) := Verify(w, s.verified, true, token, discordId);
            o == Verified ==> Register(s.(verified := verified'), discordId, Some(p), None).1 == Registered(p.correctName)
  {
  }

  /** A registration keeps each Discord id on one row when the member has not linked another one. */
  lemma RegisterKeepsOneLinkPerAccount(s: RegisterState, discordId: string, profile: Option<Profile>, fail: Option<RegisterStep>)
    requires OneLinkPerAccount(s.users) && LinkedTo(s.users, discordId) == {}
    ensures OneLinkPerAccount(Register(s, discordId, profile, fail).0.users)
  {
    var (s', o) := Register(s, discordId, profile, fail);
    if s'.users != s.users {
      var uuid := profile.value.uuid;
      forall a, b | a in s'.users && b in s'.users && a != b && s'.users[a].discordId.Some?
        ensures s'.users[a].discordId != s'.users[b].discordId
      {
        if a == uuid {
          assert b !in LinkedTo(s.users, discordId);
        } else if b == uuid {
          assert a !in LinkedTo(s.users, discordId);
        }
      }
    }
  }

  /** The member running a command: its unverified and player roles. */
  class Member {
    var unverified: bool
    var player: bool

    constructor (unverified: bool, player: bool)
      ensures this.unverified == unverified && this.player == player
    {
      this.unverified, this.player := unverified, player;
    }
  }

  /** The Minecraft server's whitelist, changed through RCON. */
  class Whitelist {
    var names: set<string>

    constructor ()
      ensures names == {}
    {
      names := {};
    }

    /** `whitelist add <name>`. */
    method Add(name: string)
      modifies this
      ensures names == old(names) + {name}
    {
      names := names + {name};
    }
  }

  /** The /verify command on the database. */
  method VerifyCommand(db: Database, member: Member, token: string, discordId: string) returns (o: VerifyOutcome)
    modifies db`waitlist, db`verifiedDiscords
    ensures (db.waitlist, db.verifiedDiscords, o) == Verify(old(db.waitlist), old(db.verifiedDiscords), member.unverified, token, discordId)
    ensures Forms.WaitlistValid(old(db.waitlist), db.nextWaitlistId) ==> Forms.WaitlistValid(db.waitlist, db.nextWaitlistId)
  {
    if !member.unverified {
      return NotEligible;
    }
    if TokenRows(db.waitlist, token) == {} {
      return InvalidToken;
    }
    db.waitlist := map id | id in db.waitlist && db.waitlist[id].token != Some(token) :: db.waitlist[id];
    db.verifiedDiscords := db.verifiedDiscords + {discordId};
    o := Verified;
  }

  /** The /link command on the database. */
  method LinkCommand(db: Database, mcName: string, discordId: string) returns (o: LinkOutcome)
    modifies db`users
    ensures (db.users, o) == Link(old(db.users), mcName, discordId)
    ensures OneLinkPerAccount(old(db.users)) && NamesUnique(old(db.users)) ==> OneLinkPerAccount(db.users)
  {
    if OneLinkPerAccount(db.users) && NamesUnique(db.users) {
      LinkKeepsOneLinkPerAccount(db.users, mcName, discordId);
    }
    if LinkedTo(db.users, discordId) != {} {
      return AlreadyLinked;
    }
    var matched := Unlinked(db.users, mcName);
    if matched == {} {
      return NotFoundOrLinked;
    }
    db.users := map u | u in db.users :: if u in matched then db.users[u].(discordId := Some(discordId)) else db.users[u];
    o := Linked;
  }

  /** The /register command: the guard ladder, then the whitelist, the two tables and the roles in the source's order, stopping at the step `fail` names. */
  method RegisterCommand(db: Database, member: Member, whitelist: Whitelist, discordId: string, profile: Option<Profile>, fail: Option<RegisterStep>)
    returns (o: RegisterOutcome)
    modifies db`users, db`verifiedDiscords, member, whitelist
    ensures var s := RegisterState(old(db.users), old(db.verifiedDiscords), Roles(old(member.unverified), old(member.player)), old(whitelist.names));
            (RegisterState(db.users, db.verifiedDiscords, Roles(member.unverified, member.player), whitelist.names), o)
            == Register(s, discordId, profile, fail)
  {
    if !member.unverified {
      return RegisterNotEligible;
    }
    if discordId !in db.verifiedDiscords {
      return NotVerified;
    }
    if fail == Some(MojangLookup) {
      return RegisterFailed(MojangLookup);
    }
    if profile.None? {
      return NoSuchAccount;
    }
    var uuid, correctName := profile.value.uuid, profile.value.correctName;
    if uuid in db.users {
      return AlreadyRegistered(correctName);
    }
    if fail == Some(WhitelistAdd) {
      return RegisterFailed(WhitelistAdd);
    }
    whitelist.Add(correctName);
    if fail == Some(UserInsert) {
      return RegisterFailed(UserInsert);
    }
    db.users := db.users[uuid := User(correctName, Some(discordId), false, None, None, PlayTimeDefault)];
    if fail == Some(VerificationDelete) {
      return RegisterFailed(VerificationDelete);
    }
    db.verifiedDiscords := db.verifiedDiscords - {discordId};
    if fail == Some(MemberFetch) || fail == Some(RoleRemove) {
      return RegisterFailed(fail.value);
    }
    member.unverified := false;
    if fail == Some(RoleAdd) {
      return RegisterFailed(RoleAdd);
    }
    member.player := true;
    o := Registered(correctName);
  }
}
