/**
 The whole server: workspace requests and session calls in one run.  Registering and revoking a device
 ask for rights on the root folder, so the folder tree decides about devices.
 */
module WholeServer {
  import opened Wrappers
  import opened Paths
  import opened Tables
  import opened Permissions
  import opened Tree
  import opened Access
  import opened Sessions
  import FolderServices
  import Runs
  import RunTheorems
  import Replies
  import SessionRuns
  import Scenarios

  datatype Call =
    | Workspace(req: Runs.Request)
    | Login(user: nat, device: nat)
    | Verify(user: nat, device: nat, signature: Bytes, token: Option<string>)
    | Fire(serial: nat)
    | Advance(seconds: nat)
    | Register(caller: nat, user: nat, key: Bytes)
    | Revoke(caller: nat, user: nat, device: nat)

  datatype State = State(work: Runs.World, users: SessionRuns.World)

  /** The session event of a call, with the caller's rights as the folder tree has them. */
  function EventOf(db: Database, call: Call): SessionRuns.Event
    requires !call.Workspace?
  {
    match call
    case Login(u, d) => SessionRuns.Login(u, d)
    case Verify(u, d, signature, token) => SessionRuns.Verify(u, d, signature, token)
    case Fire(e) => SessionRuns.Fire(e)
    case Advance(n) => SessionRuns.Advance(n)
    case Register(caller, u, key) =>
      SessionRuns.Register(FolderServices.Allowed(db, caller, ROOT, PERM_DEVICE_SETUP), u, key)
    case Revoke(caller, u, d) =>
      SessionRuns.Revoke(FolderServices.Allowed(db, caller, ROOT, PERM_ADMIN), u, d)
  }

  ghost function Apply(digest: Bytes -> Bytes, c: Crypto, s: State, call: Call): State {
    if call.Workspace? then s.(work := Runs.Apply(digest, s.work, call.req))
    else s.(users := SessionRuns.Apply(c, s.users, EventOf(s.work.db, call)))
  }

  ghost function Run(digest: Bytes -> Bytes, c: Crypto, s: State, calls: seq<Call>): State
    decreases |calls|
  {
    if calls == [] then s else Apply(digest, c, Run(digest, c, s, Front(calls)), Last(calls))
  }

  function RequestsOf(calls: seq<Call>): seq<Runs.Request> {
    if calls == [] then []
    else RequestsOf(Front(calls)) + (if Last(calls).Workspace? then [Last(calls).req] else [])
  }

  ghost function EventsOf(digest: Bytes -> Bytes, c: Crypto, s: State, calls: seq<Call>): seq<SessionRuns.Event>
    decreases |calls|
  {
    if calls == [] then []
    else
      var db, call := Run(digest, c, s, Front(calls)).work.db, Last(calls);
      EventsOf(digest, c, s, Front(calls)) + if call.Workspace? then [] else [EventOf(db, call)]
  }

  lemma WorkStep(digest: Bytes -> Bytes, w: Runs.World, reqs: seq<Runs.Request>, req: Runs.Request)
    ensures Runs.Run(digest, w, reqs + [req]) == Runs.Apply(digest, Runs.Run(digest, w, reqs), req)
  {
    Runs.RunLast(digest, w, reqs + [req]);
    assert Front(reqs + [req]) == reqs;
  }

  lemma UserStep(c: Crypto, w: SessionRuns.World, evs: seq<SessionRuns.Event>, ev: SessionRuns.Event)
    ensures SessionRuns.Run(c, w, evs + [ev]) == SessionRuns.Apply(c, SessionRuns.Run(c, w, evs), ev)
  {
    assert Front(evs + [ev]) == evs;
  }

  /** Each half of a run of the server is a run of that half, so what holds of all its runs holds here. */
  lemma {:induction false} RunProjects(digest: Bytes -> Bytes, c: Crypto, s: State, calls: seq<Call>)
    ensures Run(digest, c, s, calls).work == Runs.Run(digest, s.work, RequestsOf(calls))
    ensures Run(digest, c, s, calls).users == SessionRuns.Run(c, s.users, EventsOf(digest, c, s, calls))
    decreases |calls|
  {
    if calls != [] {
      RunProjects(digest, c, s, Front(calls));
      var before, call := Run(digest, c, s, Front(calls)), Last(calls);
      if call.Workspace? {
        WorkStep(digest, s.work, RequestsOf(Front(calls)), call.req);
        assert EventsOf(digest, c, s, calls) == EventsOf(digest, c, s, Front(calls));
      } else {
        UserStep(c, s.users, EventsOf(digest, c, s, Front(calls)), EventOf(before.work.db, call));
        assert RequestsOf(calls) == RequestsOf(Front(calls));
      }
    }
  }

  // ----- once the root is cut off -----

  /** Same devices, and no session less. */
  ghost predicate Frozen(s: Server, s': Server) {
    s'.devices == s.devices && s.sessions.Keys <= s'.sessions.Keys
  }

  /** Without a right there is no registration and no revocation. */
  lemma EventFreezes(c: Crypto, w: SessionRuns.World, ev: SessionRuns.Event)
    requires ev.Register? || ev.Revoke? ==> ev.rights == None
    ensures Frozen(w.server, SessionRuns.Apply(c, w, ev).server)
  {
  }

  lemma CallFreezes(digest: Bytes -> Bytes, c: Crypto, s: State, call: Call)
    requires Indexed(s.work.db.folders) && !Rooted(s.work.db.folders, ROOT)
    ensures Frozen(s.users.server, Apply(digest, c, s, call).users.server)
  {
    if !call.Workspace? {
      if call.Register? || call.Revoke? {
        QueryIsTreeWalk(s.work.db.folders, s.work.db.grants, call.caller, ROOT);
      }
      EventFreezes(c, s.users, EventOf(s.work.db, call));
    }
  }

  lemma {:induction false} RunFreezes(digest: Bytes -> Bytes, c: Crypto, s: State, calls: seq<Call>)
    requires Runs.Inv(digest, s.work) && ROOT in s.work.db.folders && !Rooted(s.work.db.folders, ROOT)
    ensures Frozen(s.users.server, Run(digest, c, s, calls).users.server)
    decreases |calls|
  {
    if calls != [] {
      RunFreezes(digest, c, s, Front(calls));
      RunProjects(digest, c, s, Front(calls));
      Runs.RunKeepsInv(digest, s.work, RequestsOf(Front(calls)));
      RunTheorems.NeverRootedAgain(digest, s.work, RequestsOf(Front(calls)), ROOT);
      CallFreezes(digest, c, Run(digest, c, s, Front(calls)), Last(calls));
    }
  }

  function Start(now: nat): State { State(Runs.Seeded(), SessionRuns.Start(now)) }

  /** Some run from a fresh server ends here. */
  ghost predicate Reachable(digest: Bytes -> Bytes, c: Crypto, t0: nat, s: State) {
    exists calls :: s == Run(digest, c, Start(t0), calls)
  }

  lemma ReachableInv(digest: Bytes -> Bytes, c: Crypto, t0: nat, s: State)
    requires Reachable(digest, c, t0, s)
    ensures Runs.Inv(digest, s.work) && SessionRuns.Inv(c, s.users) && ROOT in s.work.db.folders
  {
    var calls :| s == Run(digest, c, Start(t0), calls);
    RunProjects(digest, c, Start(t0), calls);
    RunTheorems.AfterInv(digest, RequestsOf(calls));
    Runs.SeededInv(digest);
    RootStays(digest, Runs.Seeded(), RequestsOf(calls));
    SessionRuns.AfterInv(c, t0, EventsOf(digest, c, Start(t0), calls));
  }

  lemma RootAnswers(db: Database, u: nat)
    requires Indexed(db.folders)
    ensures Effective(db.folders, db.grants, u, ROOT).Some? <==> Rooted(db.folders, ROOT)
  {
    QueryIsTreeWalk(db.folders, db.grants, u, ROOT);
  }

  lemma {:induction false} RootStays(digest: Bytes -> Bytes, w: Runs.World, reqs: seq<Runs.Request>)
    requires Runs.Inv(digest, w) && ROOT in w.db.folders
    ensures ROOT in Runs.Run(digest, w, reqs).db.folders
    decreases |reqs|
  {
    if reqs != [] {
      Runs.RunLast(digest, w, reqs);
      RootStays(digest, w, Front(reqs));
      Runs.RunKeepsInv(digest, w, Front(reqs));
      Runs.ApplyKeepsInv(digest, Runs.Run(digest, w, Front(reqs)), Last(reqs));
    }
  }

  // ----- when registering and revoking succeed -----

  ghost function RegisterReply(s: State, caller: nat, u: nat, key: Bytes): Reply<nat> {
    RegisterStep(s.users.server, FolderServices.Allowed(s.work.db, caller, ROOT, PERM_DEVICE_SETUP), u, key).1
  }

  ghost function RevokeReply(s: State, caller: nat, u: nat, d: nat): Reply<()> {
    RevokeStep(
      s.users.server, FolderServices.Allowed(s.work.db, caller, ROOT, PERM_ADMIN), s.users.now, u, d).1
  }

  /** A registration succeeds exactly for callers with the right at the root, and then adds this device only. */
  lemma RightsDecideRegister(digest: Bytes -> Bytes, c: Crypto, t0: nat, s: State, caller: nat, u: nat, key: Bytes)
    requires Reachable(digest, c, t0, s)
    ensures Replies.Code(RegisterReply(s, caller, u, key)) ==
              Replies.Tested(s.work.db, ROOT, Replies.Passes(s.work.db, caller, ROOT, PERM_DEVICE_SETUP), Ok(()))
    ensures var server, s' := s.users.server, Apply(digest, c, s, Register(caller, u, key));
      if RegisterReply(s, caller, u, key).Ok? then
        && RegisterReply(s, caller, u, key).value == server.nextDevice
        && server.nextDevice !in server.devices
        && s'.users.server.devices == server.devices[server.nextDevice := Device(u, key, None)]
        && s'.users.server.sessions == server.sessions
      else s' == s
  {
    ReachableInv(digest, c, t0, s);
    Replies.FolderTestCode(s.work.db, caller, ROOT, PERM_DEVICE_SETUP);
  }

  /** This device and its session are gone, and every other device and session is as it was. */
  ghost predicate EndsOnly(s: Server, s': Server, now: nat, u: nat, d: nat) {
    && s' == s.(devices := s'.devices, sessions := s'.sessions)
    && (DeviceKey(s.devices, u, d).Some? ==>
          s'.devices == s.devices[d := s.devices[d].(revokedAt := Some(now))])
    && (DeviceKey(s.devices, u, d).None? ==> s'.devices == s.devices)
    && DeviceKey(s'.devices, u, d) == None && PairKey(u, d) !in s'.sessions
    && forall v: nat, e: nat | (v, e) != (u, d) ::
         && DeviceKey(s'.devices, v, e) == DeviceKey(s.devices, v, e)
         && (PairKey(v, e) in s'.sessions <==> PairKey(v, e) in s.sessions)
  }

  lemma RevokeEndsOnly(s: Server, now: nat, u: nat, d: nat)
    ensures EndsOnly(s, RevokeStep(s, Some(true), now, u, d).0, now, u, d)
  {
    forall v: nat, e: nat | (v, e) != (u, d)
      ensures PairKey(v, e) != PairKey(u, d)
    {
      if PairKey(v, e) == PairKey(u, d) {
        PairKeyInjective(v, e, u, d);
      }
    }
  }

  /** A revocation succeeds exactly for Admins of the root, and then ends this device and its session only. */
  lemma RightsDecideRevoke(digest: Bytes -> Bytes, c: Crypto, t0: nat, s: State, caller: nat, u: nat, d: nat)
    requires Reachable(digest, c, t0, s)
    ensures Replies.Code(RevokeReply(s, caller, u, d)) ==
              Replies.Tested(s.work.db, ROOT, Replies.Passes(s.work.db, caller, ROOT, PERM_ADMIN), Ok(()))
    ensures var s' := Apply(digest, c, s, Revoke(caller, u, d));
      if RevokeReply(s, caller, u, d).Ok? then EndsOnly(s.users.server, s'.users.server, s.users.now, u, d) else s' == s
  {
    ReachableInv(digest, c, t0, s);
    Replies.FolderTestCode(s.work.db, caller, ROOT, PERM_ADMIN);
    RevokeEndsOnly(s.users.server, s.users.now, u, d);
  }

  // ----- the root decides about devices -----

  lemma LockedRootFreezesDevices(
    digest: Bytes -> Bytes, c: Crypto, t0: nat, s: State, more: seq<Call>, u: nat)
    requires Reachable(digest, c, t0, s)
    requires Effective(s.work.db.folders, s.work.db.grants, u, ROOT) == None
    ensures Frozen(s.users.server, Run(digest, c, s, more).users.server)
  {
    ReachableInv(digest, c, t0, s);
    RootAnswers(s.work.db, u);
    RunFreezes(digest, c, s, more);
  }

  lemma GrantWithin(fs: Folders, grants: Grants, u: nat, x: nat)
    requires Rooted(fs, x)
    ensures GrantOf(grants, u, x) <= Eff(fs, grants, u, x)
  {
  }

  lemma TwoCalls(digest: Bytes -> Bytes, c: Crypto, s: State, a: Call, b: Call)
    ensures Run(digest, c, s, [a, b]) == Apply(digest, c, Apply(digest, c, s, a), b)
  {
    CallStep(digest, c, s, [], a);
    CallStep(digest, c, s, [a], b);
    assert [] + [a] == [a] && [a] + [b] == [a, b];
  }

  function MakeAdmin(a: nat): Call { Workspace(Runs.Grant(a, ROOT, PERM_ADMIN)) }

  /** A grant makes any caller an Admin of a root that answers. */
  lemma AdminByGrant(digest: Bytes -> Bytes, c: Crypto, s: State, a: nat)
    requires Runs.Inv(digest, s.work) && Rooted(s.work.db.folders, ROOT)
    ensures var s' := Apply(digest, c, s, MakeAdmin(a));
      && s'.users == s.users && s'.work.db.folders == s.work.db.folders
      && Runs.Inv(digest, s'.work) && Replies.Passes(s'.work.db, a, ROOT, PERM_ADMIN)
  {
    var s' := Apply(digest, c, s, MakeAdmin(a));
    Runs.ApplyKeepsInv(digest, s.work, Runs.Grant(a, ROOT, PERM_ADMIN));
    GrantWithin(s'.work.db.folders, s'.work.db.grants, a, ROOT);
  }

  lemma AdminRevokes(digest: Bytes -> Bytes, c: Crypto, s: State, a: nat, u: nat, d: nat)
    requires Runs.Inv(digest, s.work) && Rooted(s.work.db.folders, ROOT)
    ensures DeviceKey(Run(digest, c, s, [MakeAdmin(a), Revoke(a, u, d)]).users.server.devices, u, d) == None
  {
    var s' := Apply(digest, c, s, MakeAdmin(a));
    AdminByGrant(digest, c, s, a);
    TwoCalls(digest, c, s, MakeAdmin(a), Revoke(a, u, d));
    Replies.FolderTest(s'.work.db, a, ROOT, PERM_ADMIN);
  }

  lemma AdminRegisters(digest: Bytes -> Bytes, c: Crypto, s: State, a: nat)
    requires Runs.Inv(digest, s.work) && SessionRuns.Inv(c, s.users) && Rooted(s.work.db.folders, ROOT)
    ensures Run(digest, c, s, [MakeAdmin(a), Register(a, a, [])]).users.server.devices != s.users.server.devices
  {
    var s' := Apply(digest, c, s, MakeAdmin(a));
    AdminByGrant(digest, c, s, a);
    TwoCalls(digest, c, s, MakeAdmin(a), Register(a, a, []));
    Replies.FolderTest(s'.work.db, a, ROOT, PERM_DEVICE_SETUP);
    assert s.users.server.nextDevice !in s.users.server.devices;
  }

  /** A registered device can still be revoked exactly if the permission query answers on the root. */
  lemma RevocableIff(digest: Bytes -> Bytes, c: Crypto, t0: nat, s: State, u: nat, d: nat, v: nat)
    requires Reachable(digest, c, t0, s) && DeviceKey(s.users.server.devices, u, d).Some?
    ensures (exists more :: DeviceKey(Run(digest, c, s, more).users.server.devices, u, d) == None)
       <==> Effective(s.work.db.folders, s.work.db.grants, v, ROOT).Some?
  {
    ReachableInv(digest, c, t0, s);
    RootAnswers(s.work.db, v);
    if Rooted(s.work.db.folders, ROOT) {
      AdminRevokes(digest, c, s, u, u, d);
    } else if more :| DeviceKey(Run(digest, c, s, more).users.server.devices, u, d) == None {
      RunFreezes(digest, c, s, more);
      assert false;
    }
  }

  /**
   No call will ever register or revoke a device or end a session, exactly if the permission query fails
   on the root.
   */
  lemma RootDecidesDevices(digest: Bytes -> Bytes, c: Crypto, t0: nat, s: State, v: nat)
    requires Reachable(digest, c, t0, s)
    ensures (forall more :: Frozen(s.users.server, Run(digest, c, s, more).users.server))
       <==> Effective(s.work.db.folders, s.work.db.grants, v, ROOT) == None
  {
    ReachableInv(digest, c, t0, s);
    RootAnswers(s.work.db, v);
    if Rooted(s.work.db.folders, ROOT) {
      AdminRegisters(digest, c, s, 1);
      var more := [MakeAdmin(1), Register(1, 1, [])];
      assert !Frozen(s.users.server, Run(digest, c, s, more).users.server);
    } else {
      forall more
        ensures Frozen(s.users.server, Run(digest, c, s, more).users.server)
      {
        RunFreezes(digest, c, s, more);
      }
    }
  }

  lemma {:induction false} RunSplit(digest: Bytes -> Bytes, c: Crypto, s: State, a: seq<Call>, b: seq<Call>)
    ensures Run(digest, c, s, a + b) == Run(digest, c, Run(digest, c, s, a), b)
    decreases |b|
  {
    if b == [] {
      assert a + b == a;
    } else {
      RunSplit(digest, c, s, a, Front(b));
      assert Front(a + b) == a + Front(b) && Last(a + b) == Last(b);
    }
  }

  // ----- a run that gets there -----

  lemma CallStep(digest: Bytes -> Bytes, c: Crypto, s: State, calls: seq<Call>, call: Call)
    ensures Run(digest, c, s, calls + [call]) == Apply(digest, c, Run(digest, c, s, calls), call)
  {
    assert Front(calls + [call]) == calls;
  }

  function LockOut(key: Bytes): seq<Call> {
    [Workspace(Runs.Grant(1, ROOT, Scenarios.RIGHTS))] + [Register(1, 7, key)]
    + [Workspace(Runs.MoveFolder(1, ROOT, ROOT))]
  }

  lemma LockedOut(digest: Bytes -> Bytes, c: Crypto, t0: nat, key: Bytes)
    ensures var s := Run(digest, c, Start(t0), LockOut(key));
      && Effective(s.work.db.folders, s.work.db.grants, 1, ROOT) == None
      && DeviceKey(s.users.server.devices, 7, 1) == Some(key)
  {
    var grant, register := Workspace(Runs.Grant(1, ROOT, Scenarios.RIGHTS)), Register(1, 7, key);
    var move := Workspace(Runs.MoveFolder(1, ROOT, ROOT));
    CallStep(digest, c, Start(t0), [], grant);
    CallStep(digest, c, Start(t0), [grant], register);
    CallStep(digest, c, Start(t0), [grant] + [register], move);
    assert [] + [grant] == [grant];
    RunProjects(digest, c, Start(t0), [grant]);
    RunProjects(digest, c, Start(t0), LockOut(key));
    WorkOf(grant, register, move);
    Scenarios.SetupGrants(digest);
    RunTheorems.AfterInv(digest, Scenarios.Setup());
    Replies.FolderTest(Run(digest, c, Start(t0), [grant]).work.db, 1, ROOT, PERM_DEVICE_SETUP);
    Scenarios.MovedRootIsLocked(digest, 1, ROOT);
  }

  lemma WorkOf(grant: Call, register: Call, move: Call)
    requires grant.Workspace? && !register.Workspace? && move.Workspace?
    ensures RequestsOf([grant]) == [grant.req]
    ensures RequestsOf([grant] + [register] + [move]) == [grant.req] + [move.req]
  {
    assert Front([grant]) == [];
    assert Front([grant] + [register]) == [grant];
    assert Front([grant] + [register] + [move]) == [grant] + [register];
  }

  /** Device 1 of user 7, registered before the root was moved under itself, is never revoked. */
  lemma DeviceOutlivesRoot(digest: Bytes -> Bytes, c: Crypto, t0: nat, key: Bytes, more: seq<Call>)
    ensures var s := Run(digest, c, Start(t0), LockOut(key));
      DeviceKey(Run(digest, c, s, more).users.server.devices, 7, 1) == Some(key)
  {
    LockedOut(digest, c, t0, key);
    LockedRootFreezesDevices(digest, c, t0, Run(digest, c, Start(t0), LockOut(key)), more, 1);
  }
}
