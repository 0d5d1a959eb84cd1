/**
 All runs of the login and session handlers.  Every event is one atomic step: a handler call, a timer
 that goes off at or after its deadline, or the passing of time.
 */
module SessionRuns {
  import opened Wrappers
  import opened Paths
  import opened Tables
  import opened Sessions

  /** `rights` is the caller's permission test, `token` the answer of the token library. */
  datatype Event =
    | Login(user: nat, device: nat)
    | Verify(user: nat, device: nat, signature: Bytes, token: Option<string>)
    | Fire(serial: nat)
    | Register(rights: Option<bool>, user: nat, key: Bytes)
    | Revoke(rights: Option<bool>, user: nat, device: nat)
    | Advance(seconds: nat)

  /** A challenge as issued; its position in the history is its serial. */
  datatype Issue = Issue(user: nat, device: nat, at: nat)

  /** A successful verification. */
  datatype Activation = Activation(user: nat, device: nat, serial: nat, key: Bytes, signature: Bytes, at: nat)

  datatype World = World(server: Server, now: nat, issued: seq<Issue>, log: seq<Activation>)

  function Start(now: nat): World { World(Server(map[], 1, map[], map[], 0, map[]), now, [], []) }

  function AfterLogin(c: Crypto, w: World, u: nat, d: nat): World {
    var (s, reply) := LoginStep(c, w.server, w.now, u, d);
    w.(server := s, issued := if reply.Ok? then w.issued + [Issue(u, d, w.now)] else w.issued)
  }

  function AfterVerify(
    c: Crypto, w: World, u: nat, d: nat, signature: Bytes, token: Option<string>): World
  {
    var s' := VerifyStep(c, w.server, u, d, signature, token).0;
    if Proves(c, w.server, u, d, signature) then
      w.(server := s',
         log := w.log + [Activation(u, d, w.server.cache[PairKey(u, d)].serial,
                                    DeviceKey(w.server.devices, u, d).value, signature, w.now)])
    else w.(server := s')
  }

  /** A timer is never early; it may be late. */
  predicate Due(w: World, e: nat) { e in w.server.timers && w.server.timers[e].deadline <= w.now }

  function Apply(c: Crypto, w: World, ev: Event): World {
    match ev
    case Login(u, d) => AfterLogin(c, w, u, d)
    case Verify(u, d, signature, token) => AfterVerify(c, w, u, d, signature, token)
    case Fire(e) => if Due(w, e) then w.(server := FireStep(w.server, e)) else w
    case Register(rights, u, key) => w.(server := RegisterStep(w.server, rights, u, key).0)
    case Revoke(rights, u, d) => w.(server := RevokeStep(w.server, rights, w.now, u, d).0)
    case Advance(n) => w.(now := w.now + n)
  }

  function Run(c: Crypto, w: World, evs: seq<Event>): World
    decreases |evs|
  {
    if evs == [] then w else Apply(c, Run(c, w, Front(evs)), Last(evs))
  }

  lemma {:induction false} RunSplit(c: Crypto, w: World, a: seq<Event>, b: seq<Event>)
    ensures Run(c, w, a + b) == Run(c, Run(c, w, a), b)
    decreases |b|
  {
    if b == [] {
      assert a + b == a;
    } else {
      RunSplit(c, w, a, Front(b));
      assert Front(a + b) == a + Front(b) && Last(a + b) == Last(b);
    }
  }

  // ----- the invariant -----

  ghost predicate Activated(log: seq<Activation>, u: nat, d: nat) {
    exists i :: 0 <= i < |log| && log[i].user == u && log[i].device == d
  }

  ghost predicate KeyOf(issued: seq<Issue>, e: nat, k: string) {
    e < |issued| && k == PairKey(issued[e].user, issued[e].device)
  }

  function Signed(c: Crypto, issue: Issue): Bytes { c.marshal(issue.user, issue.device, issue.at) }

  /** Every cached challenge is the one issued for its key, and its own timer is pending. */
  ghost predicate CacheOk(c: Crypto, cache: map<string, Entry>, timers: map<nat, Timer>, issued: seq<Issue>) {
    forall k | k in cache ::
      && KeyOf(issued, cache[k].serial, k)
      && cache[k].bytes == Signed(c, issued[cache[k].serial])
      && cache[k].serial in timers
  }

  ghost predicate TimersOk(timers: map<nat, Timer>, issued: seq<Issue>) {
    forall e | e in timers :: KeyOf(issued, e, timers[e].key) && timers[e].deadline == issued[e].at + LIFETIME
  }

  ghost predicate IssuedOk(now: nat, issued: seq<Issue>) {
    forall e | 0 <= e < |issued| :: issued[e].user != 0 && issued[e].device != 0 && issued[e].at <= now
  }

  /** One logged activation: a signature over the challenge issued to that device, under its key. */
  ghost predicate ActivationOk(c: Crypto, devices: map<nat, Device>, now: nat, issued: seq<Issue>, a: Activation) {
    && a.serial < |issued|
    && issued[a.serial].user == a.user && issued[a.serial].device == a.device
    && issued[a.serial].at <= a.at <= now
    && a.device in devices && devices[a.device].user == a.user && devices[a.device].key == a.key
    && a.signature != [] && c.verify(a.key, Signed(c, issued[a.serial]), a.signature)
  }

  ghost predicate LogOk(c: Crypto, devices: map<nat, Device>, now: nat, issued: seq<Issue>, log: seq<Activation>) {
    && (forall i | 0 <= i < |log| :: ActivationOk(c, devices, now, issued, log[i]))
    && (forall i, j | 0 <= i < j < |log| :: log[i].serial != log[j].serial)
  }

  /** What is still cached has not been used. */
  ghost predicate Unused(cache: map<string, Entry>, log: seq<Activation>) {
    forall k, i | k in cache && 0 <= i < |log| :: log[i].serial != cache[k].serial
  }

  /** Sessions are the devices that logged in and are not revoked. */
  ghost predicate SessionsOk(devices: map<nat, Device>, sessions: map<string, bool>, log: seq<Activation>) {
    && (forall u, d :: PairKey(u, d) in sessions <==> DeviceKey(devices, u, d).Some? && Activated(log, u, d))
    && (forall k | k in sessions :: exists u, d :: k == PairKey(u, d))
  }

  ghost predicate DevicesOk(s: Server) { forall d | d in s.devices :: d < s.nextDevice }

  ghost predicate Inv(c: Crypto, w: World) {
    && w.server.nextEntry == |w.issued|
    && DevicesOk(w.server)
    && CacheOk(c, w.server.cache, w.server.timers, w.issued)
    && TimersOk(w.server.timers, w.issued)
    && IssuedOk(w.now, w.issued)
    && LogOk(c, w.server.devices, w.now, w.issued, w.log)
    && Unused(w.server.cache, w.log)
    && SessionsOk(w.server.devices, w.server.sessions, w.log)
  }

  lemma StartInv(c: Crypto, now: nat)
    ensures Inv(c, Start(now))
  {
  }

  // ----- each event keeps it -----

  lemma IssueKeepsLog(
    c: Crypto, devices: map<nat, Device>, now: nat, issued: seq<Issue>, issue: Issue, log: seq<Activation>)
    requires LogOk(c, devices, now, issued, log)
    ensures LogOk(c, devices, now, issued + [issue], log)
  {
  }

  lemma IssueKeepsCache(
    c: Crypto, cache: map<string, Entry>, timers: map<nat, Timer>, issued: seq<Issue>, issue: Issue)
    requires CacheOk(c, cache, timers, issued) && TimersOk(timers, issued)
    ensures var k, e := PairKey(issue.user, issue.device), |issued|;
      var timers' := timers[e := Timer(k, issue.at + LIFETIME)];
      && CacheOk(c, cache[k := Entry(e, Signed(c, issue))], timers', issued + [issue])
      && TimersOk(timers', issued + [issue])
  {
  }

  lemma LoginKeepsInv(c: Crypto, w: World, u: nat, d: nat)
    requires Inv(c, w)
    ensures Inv(c, AfterLogin(c, w, u, d))
  {
    if LoginStep(c, w.server, w.now, u, d).1.Ok? {
      var issue := Issue(u, d, w.now);
      IssueKeepsLog(c, w.server.devices, w.now, w.issued, issue, w.log);
      IssueKeepsCache(c, w.server.cache, w.server.timers, w.issued, issue);
      NewSerialUnused(c, w, PairKey(u, d), Signed(c, issue));
    }
  }

  lemma NewSerialUnused(c: Crypto, w: World, k: string, bytes: Bytes)
    requires Inv(c, w)
    ensures Unused(w.server.cache[k := Entry(|w.issued|, bytes)], w.log)
  {
  }

  /** Entries that leave the cache do not matter. */
  lemma DropKeepsInv(c: Crypto, w: World, k: string)
    requires Inv(c, w)
    ensures Inv(c, w.(server := w.server.(cache := w.server.cache - {k})))
  {
  }

  /** The challenge was issued to this device, so the log may record the activation. */
  lemma ProofIsSound(c: Crypto, w: World, u: nat, d: nat, signature: Bytes)
    requires Inv(c, w) && Proves(c, w.server, u, d, signature)
    ensures ActivationOk(c, w.server.devices, w.now, w.issued,
                         Activation(u, d, w.server.cache[PairKey(u, d)].serial,
                                    DeviceKey(w.server.devices, u, d).value, signature, w.now))
  {
    var e := w.server.cache[PairKey(u, d)].serial;
    assert KeyOf(w.issued, e, PairKey(u, d));
    PairKeyInjective(u, d, w.issued[e].user, w.issued[e].device);
  }

  lemma ActivateKeepsLog(
    c: Crypto, devices: map<nat, Device>, now: nat, issued: seq<Issue>, cache: map<string, Entry>, k: string,
    log: seq<Activation>, a: Activation)
    requires LogOk(c, devices, now, issued, log) && Unused(cache, log) && ActivationOk(c, devices, now, issued, a)
    requires k in cache && cache[k].serial == a.serial
    ensures LogOk(c, devices, now, issued, log + [a])
  {
  }

  /** Other keys hold other challenges. */
  lemma ActivateKeepsUnused(c: Crypto, w: World, k: string, a: Activation)
    requires Inv(c, w) && k in w.server.cache && w.server.cache[k].serial == a.serial
    ensures Unused(w.server.cache - {k}, w.log + [a])
  {
  }

  lemma ActivatedSnoc(log: seq<Activation>, a: Activation, u: nat, d: nat)
    ensures Activated(log + [a], u, d) <==> Activated(log, u, d) || (a.user == u && a.device == d)
  {
    var log' := log + [a];
    if i :| 0 <= i < |log| && log[i].user == u && log[i].device == d {
      assert log'[i] == log[i];
    }
    if a.user == u && a.device == d {
      assert log'[|log|] == a;
    }
  }

  lemma ActivateKeepsSessions(
    devices: map<nat, Device>, sessions: map<string, bool>, log: seq<Activation>, a: Activation)
    requires SessionsOk(devices, sessions, log) && DeviceKey(devices, a.user, a.device).Some?
    ensures SessionsOk(devices, sessions[PairKey(a.user, a.device) := true], log + [a])
  {
    var sessions' := sessions[PairKey(a.user, a.device) := true];
    forall u: nat, d: nat
      ensures PairKey(u, d) in sessions' <==> DeviceKey(devices, u, d).Some? && Activated(log + [a], u, d)
    {
      ActivatedSnoc(log, a, u, d);
      if PairKey(u, d) == PairKey(a.user, a.device) {
        PairKeyInjective(u, d, a.user, a.device);
      }
    }
  }

  lemma VerifyKeepsInv(c: Crypto, w: World, u: nat, d: nat, signature: Bytes, token: Option<string>)
    requires Inv(c, w)
    ensures Inv(c, AfterVerify(c, w, u, d, signature, token))
  {
    var k := PairKey(u, d);
    DropKeepsInv(c, w, k);
    if Proves(c, w.server, u, d, signature) {
      var a := Activation(u, d, w.server.cache[k].serial, DeviceKey(w.server.devices, u, d).value, signature, w.now);
      ProofIsSound(c, w, u, d, signature);
      ActivateKeepsLog(c, w.server.devices, w.now, w.issued, w.server.cache, k, w.log, a);
      ActivateKeepsUnused(c, w, k, a);
      ActivateKeepsSessions(w.server.devices, w.server.sessions, w.log, a);
    }
  }

  /** The entry whose timer goes off leaves the cache, so every entry left still has its timer. */
  lemma FireKeepsInv(c: Crypto, w: World, e: nat)
    requires Inv(c, w)
    ensures Inv(c, w.(server := FireStep(w.server, e)))
  {
    FireKeepsCache(c, w.server, w.issued, e);
  }

  lemma FireKeepsCache(c: Crypto, s: Server, issued: seq<Issue>, e: nat)
    requires CacheOk(c, s.cache, s.timers, issued) && TimersOk(s.timers, issued)
    ensures CacheOk(c, FireStep(s, e).cache, FireStep(s, e).timers, issued)
  {
    forall k | k in s.cache && s.cache[k].serial == e
      ensures k == s.timers[e].key
    {
      assert KeyOf(issued, s.cache[k].serial, k);
    }
  }

  lemma {:induction false} DevicesKeepLog(
    c: Crypto, devices: map<nat, Device>, devices': map<nat, Device>, now: nat, issued: seq<Issue>,
    log: seq<Activation>)
    requires LogOk(c, devices, now, issued, log)
    requires forall d | d in devices ::
               d in devices' && devices'[d].user == devices[d].user && devices'[d].key == devices[d].key
    ensures LogOk(c, devices', now, issued, log)
  {
  }

  lemma RegisterKeepsInv(c: Crypto, w: World, rights: Option<bool>, u: nat, key: Bytes)
    requires Inv(c, w)
    ensures Inv(c, w.(server := RegisterStep(w.server, rights, u, key).0))
  {
    if rights == Some(true) {
      var s, s' := w.server, RegisterStep(w.server, rights, u, key).0;
      DevicesKeepLog(c, s.devices, s'.devices, w.now, w.issued, w.log);
      RegisterKeepsSessions(c, w, u, key);
    }
  }

  /** A fresh device has not logged in yet. */
  lemma RegisterKeepsSessions(c: Crypto, w: World, u: nat, key: Bytes)
    requires Inv(c, w)
    ensures SessionsOk(w.server.devices[w.server.nextDevice := Device(u, key, None)], w.server.sessions, w.log)
  {
  }

  lemma RevokeKeepsSessions(
    devices: map<nat, Device>, sessions: map<string, bool>, log: seq<Activation>, now: nat, u: nat, d: nat)
    requires SessionsOk(devices, sessions, log)
    ensures SessionsOk(Revoked(devices, now, u, d), sessions - {PairKey(u, d)}, log)
  {
    forall v: nat, e: nat
      ensures PairKey(v, e) == PairKey(u, d) <==> v == u && e == d
    {
      if PairKey(u, d) == PairKey(v, e) {
        PairKeyInjective(u, d, v, e);
      }
    }
    RevokedKeys(devices, now, u, d);
  }

  lemma RevokedKeys(devices: map<nat, Device>, now: nat, u: nat, d: nat)
    ensures forall v, e :: DeviceKey(Revoked(devices, now, u, d), v, e).Some?
                      <==> DeviceKey(devices, v, e).Some? && !(v == u && e == d)
  {
  }

  lemma RevokeKeepsInv(c: Crypto, w: World, rights: Option<bool>, u: nat, d: nat)
    requires Inv(c, w)
    ensures Inv(c, w.(server := RevokeStep(w.server, rights, w.now, u, d).0))
  {
    if rights == Some(true) {
      var s, s' := w.server, RevokeStep(w.server, rights, w.now, u, d).0;
      DevicesKeepLog(c, s.devices, s'.devices, w.now, w.issued, w.log);
      RevokeKeepsSessions(s.devices, s.sessions, w.log, w.now, u, d);
    }
  }

  lemma AdvanceKeepsInv(c: Crypto, w: World, n: nat)
    requires Inv(c, w)
    ensures Inv(c, w.(now := w.now + n))
  {
  }

  lemma ApplyKeepsInv(c: Crypto, w: World, ev: Event)
    requires Inv(c, w)
    ensures Inv(c, Apply(c, w, ev))
  {
    match ev
    case Login(u, d) => LoginKeepsInv(c, w, u, d);
    case Verify(u, d, signature, token) => VerifyKeepsInv(c, w, u, d, signature, token);
    case Fire(e) => FireKeepsInv(c, w, e);
    case Register(rights, u, key) => RegisterKeepsInv(c, w, rights, u, key);
    case Revoke(rights, u, d) => RevokeKeepsInv(c, w, rights, u, d);
    case Advance(n) => AdvanceKeepsInv(c, w, n);
  }

  lemma {:induction false} RunKeepsInv(c: Crypto, w: World, evs: seq<Event>)
    requires Inv(c, w)
    ensures Inv(c, Run(c, w, evs))
    decreases |evs|
  {
    if evs != [] {
      RunKeepsInv(c, w, Front(evs));
      ApplyKeepsInv(c, Run(c, w, Front(evs)), Last(evs));
    }
  }

  function After(c: Crypto, t0: nat, evs: seq<Event>): World { Run(c, Start(t0), evs) }

  lemma AfterInv(c: Crypto, t0: nat, evs: seq<Event>)
    ensures Inv(c, After(c, t0, evs))
  {
    StartInv(c, t0);
    RunKeepsInv(c, Start(t0), evs);
  }

  // ----- sessions -----

  /**
   A session is active exactly when the device is registered to the user, not revoked, and has logged
   in; and every login of the run verified a signature, under the device's key, over a challenge that
   was issued to this user and device and was used for no other login.
   */
  lemma EveryRunActivatesByChallenge(c: Crypto, t0: nat, evs: seq<Event>, u: nat, d: nat, i: nat)
    ensures var w := After(c, t0, evs);
      && (PairKey(u, d) in w.server.sessions <==>
            DeviceKey(w.server.devices, u, d).Some? && Activated(w.log, u, d))
      && (i < |w.log| ==>
            var a := w.log[i];
            && a.serial < |w.issued|
            && w.issued[a.serial].user == a.user && w.issued[a.serial].device == a.device
            && a.device in w.server.devices && w.server.devices[a.device].user == a.user
            && c.verify(w.server.devices[a.device].key, c.marshal(a.user, a.device, w.issued[a.serial].at), a.signature)
            && forall j | 0 <= j < |w.log| && w.log[j].serial == a.serial :: j == i)
  {
    var w := After(c, t0, evs);
    AfterInv(c, t0, evs);
    if i < |w.log| {
      assert ActivationOk(c, w.server.devices, w.now, w.issued, w.log[i]);
    }
  }

  /** A request that is let through comes from a registered, unrevoked device that has logged in. */
  lemma AcceptedMeansLoggedIn(
    c: Crypto, t0: nat, evs: seq<Event>, decrypt: string -> Option<Claims>, header: Option<seq<string>>)
    ensures var w := After(c, t0, evs);
      var reply := AuthenticateStep(decrypt, w.server.sessions, header);
      reply.Ok? <==>
        && header.Some? && header.value != []
        && decrypt(TrimBearer(header.value[0])).Some?
        && (var claims := decrypt(TrimBearer(header.value[0])).value;
            && DeviceKey(w.server.devices, claims.user, claims.device).Some?
            && Activated(w.log, claims.user, claims.device))
  {
    AfterInv(c, t0, evs);
  }

  // ----- logins that end in an error -----

  /** A verification answered with an error starts a session exactly if only the token was missing. */
  lemma FailedLoginSession(c: Crypto, s: Server, u: nat, d: nat, signature: Bytes, token: Option<string>)
    requires !VerifyStep(c, s, u, d, signature, token).1.Ok?
    ensures var sessions' := VerifyStep(c, s, u, d, signature, token).0.sessions;
      && (PairKey(u, d) in sessions' <==>
            PairKey(u, d) in s.sessions || (Proves(c, s, u, d, signature) && token.None?))
      && forall k | k != PairKey(u, d) :: k in sessions' <==> k in s.sessions
  {
  }

  lemma AfterLast(c: Crypto, t0: nat, evs: seq<Event>, ev: Event)
    ensures After(c, t0, evs + [ev]) == Apply(c, After(c, t0, evs), ev)
  {
    assert Front(evs + [ev]) == evs;
  }

  /** The same in every run. */
  lemma FailedLoginInRun(
    c: Crypto, t0: nat, evs: seq<Event>, u: nat, d: nat, signature: Bytes, token: Option<string>)
    requires !VerifyStep(c, After(c, t0, evs).server, u, d, signature, token).1.Ok?
    ensures var w, w' := After(c, t0, evs), After(c, t0, evs + [Verify(u, d, signature, token)]);
      && (PairKey(u, d) in w'.server.sessions <==>
            PairKey(u, d) in w.server.sessions || (Proves(c, w.server, u, d, signature) && token.None?))
      && forall k | k != PairKey(u, d) :: k in w'.server.sessions <==> k in w.server.sessions
  {
    AfterLast(c, t0, evs, Verify(u, d, signature, token));
    FailedLoginSession(c, After(c, t0, evs).server, u, d, signature, token);
  }

  function FirstLogin(key: Bytes): seq<Event> { [Register(Some(true), 1, key)] + [Login(1, 1)] }

  lemma FirstChallenge(c: Crypto, t0: nat, key: Bytes)
    ensures var w := After(c, t0, FirstLogin(key));
      && w.server.sessions == map[]
      && w.server.devices == map[1 := Device(1, key, None)]
      && PairKey(1, 1) in w.server.cache && w.server.cache[PairKey(1, 1)].bytes == c.marshal(1, 1, t0)
  {
    AfterLast(c, t0, [], Register(Some(true), 1, key));
    AfterLast(c, t0, [Register(Some(true), 1, key)], Login(1, 1));
    assert [] + [Register(Some(true), 1, key)] == [Register(Some(true), 1, key)];
  }

  /** A run in which the reply to the login is an error and the session is there. */
  lemma TokenFailureLeavesSession(c: Crypto, t0: nat, key: Bytes, signature: Bytes)
    requires signature != [] && c.verify(key, c.marshal(1, 1, t0), signature)
    ensures var w := After(c, t0, FirstLogin(key));
      && PairKey(1, 1) !in w.server.sessions
      && VerifyStep(c, w.server, 1, 1, signature, None).1 == Internal
      && PairKey(1, 1) in After(c, t0, FirstLogin(key) + [Verify(1, 1, signature, None)]).server.sessions
  {
    FirstChallenge(c, t0, key);
    FailedLoginInRun(c, t0, FirstLogin(key), 1, 1, signature, None);
  }

  // ----- revocation -----

  ghost predicate IsRevoked(s: Server, d: nat) { d in s.devices && s.devices[d].revokedAt.Some? }

  lemma ApplyKeepsRevoked(c: Crypto, w: World, ev: Event, d: nat)
    requires DevicesOk(w.server) && IsRevoked(w.server, d)
    ensures IsRevoked(Apply(c, w, ev).server, d)
    ensures Apply(c, w, ev).server.devices[d] == w.server.devices[d]
  {
  }

  lemma {:induction false} RunKeepsRevoked(c: Crypto, w: World, evs: seq<Event>, d: nat)
    requires Inv(c, w) && IsRevoked(w.server, d)
    ensures IsRevoked(Run(c, w, evs).server, d)
    ensures Run(c, w, evs).server.devices[d] == w.server.devices[d]
    decreases |evs|
  {
    if evs != [] {
      RunKeepsRevoked(c, w, Front(evs), d);
      RunKeepsInv(c, w, Front(evs));
      ApplyKeepsRevoked(c, Run(c, w, Front(evs)), Last(evs), d);
    }
  }

  /** Once revoked, a device gets no challenge, no session and no request through, whatever follows. */
  lemma RevokedForever(
    c: Crypto, t0: nat, evs: seq<Event>, more: seq<Event>, u: nat, d: nat,
    decrypt: string -> Option<Claims>, header: Option<seq<string>>, signature: Bytes, token: Option<string>)
    requires var w := After(c, t0, evs); d in w.server.devices && w.server.devices[d].user == u
    ensures var w' := After(c, t0, evs + [Revoke(Some(true), u, d)] + more);
      && PairKey(u, d) !in w'.server.sessions
      && !LoginStep(c, w'.server, w'.now, u, d).1.Ok?
      && (var s' := VerifyStep(c, w'.server, u, d, signature, token);
          !s'.1.Ok? && PairKey(u, d) !in s'.0.sessions)
      && AuthenticateStep(decrypt, w'.server.sessions, header) != Ok(Claims(u, d))
  {
    var revoke := Revoke(Some(true), u, d);
    var w, v := After(c, t0, evs), After(c, t0, evs + [revoke]);
    AfterInv(c, t0, evs + [revoke]);
    assert Front(evs + [revoke]) == evs;
    assert v == Apply(c, w, revoke);
    RunSplit(c, Start(t0), evs + [revoke], more);
    RunKeepsRevoked(c, v, more, d);
    AfterInv(c, t0, evs + [revoke] + more);
  }

  // ----- expiry -----

  /** Time does not pass over a pending deadline. */
  ghost predicate Punctual(c: Crypto, w: World, evs: seq<Event>)
    decreases |evs|
  {
    evs == []
    || (Punctual(c, w, Front(evs))
        && var v := Run(c, w, Front(evs));
           Last(evs).Advance? ==>
             forall e | e in v.server.timers :: v.now + Last(evs).seconds <= v.server.timers[e].deadline)
  }

  ghost predicate NoneOverdue(w: World) { forall e | e in w.server.timers :: w.now <= w.server.timers[e].deadline }

  /** A verification never used a challenge older than three minutes. */
  ghost predicate FreshLog(issued: seq<Issue>, log: seq<Activation>) {
    forall i | 0 <= i < |log| :: log[i].serial < |issued| && log[i].at <= issued[log[i].serial].at + LIFETIME
  }

  lemma {:induction false} ApplyKeepsNoneOverdue(c: Crypto, w: World, ev: Event)
    requires NoneOverdue(w)
    requires ev.Advance? ==> forall e | e in w.server.timers :: w.now + ev.seconds <= w.server.timers[e].deadline
    ensures NoneOverdue(Apply(c, w, ev))
  {
  }

  lemma ApplyKeepsFresh(c: Crypto, w: World, ev: Event)
    requires Inv(c, w) && NoneOverdue(w) && FreshLog(w.issued, w.log)
    ensures FreshLog(Apply(c, w, ev).issued, Apply(c, w, ev).log)
  {
    if ev.Verify? && Proves(c, w.server, ev.user, ev.device, ev.signature) {
      var e := w.server.cache[PairKey(ev.user, ev.device)].serial;
      assert KeyOf(w.issued, e, PairKey(ev.user, ev.device)) && e in w.server.timers;
    }
  }

  lemma {:induction false} PunctualRun(c: Crypto, w: World, evs: seq<Event>)
    requires Inv(c, w) && NoneOverdue(w) && FreshLog(w.issued, w.log) && Punctual(c, w, evs)
    ensures NoneOverdue(Run(c, w, evs)) && FreshLog(Run(c, w, evs).issued, Run(c, w, evs).log)
    decreases |evs|
  {
    if evs != [] {
      PunctualRun(c, w, Front(evs));
      RunKeepsInv(c, w, Front(evs));
      ApplyKeepsNoneOverdue(c, Run(c, w, Front(evs)), Last(evs));
      ApplyKeepsFresh(c, Run(c, w, Front(evs)), Last(evs));
    }
  }

  /** Every cached challenge has a pending timer of its own, set to three minutes after its issue. */
  lemma EveryRunTimesChallenges(c: Crypto, t0: nat, evs: seq<Event>, k: string, l: string)
    requires k in After(c, t0, evs).server.cache && l in After(c, t0, evs).server.cache
    ensures var w := After(c, t0, evs);
      var e := w.server.cache[k].serial;
      && e in w.server.timers && e < |w.issued|
      && w.server.timers[e] == Timer(k, w.issued[e].at + LIFETIME)
      && k == PairKey(w.issued[e].user, w.issued[e].device)
      && (w.server.cache[l].serial == e ==> l == k)
  {
    var w := After(c, t0, evs);
    AfterInv(c, t0, evs);
    assert KeyOf(w.issued, w.server.cache[k].serial, k) && KeyOf(w.issued, w.server.cache[l].serial, l);
  }

  /** When timers go off on time, no challenge is kept or used longer than three minutes. */
  lemma PunctualChallengesExpire(c: Crypto, t0: nat, evs: seq<Event>, k: string, i: nat)
    requires Punctual(c, Start(t0), evs)
    ensures var w := After(c, t0, evs);
      && (k in w.server.cache ==>
            w.server.cache[k].serial < |w.issued| && w.now <= w.issued[w.server.cache[k].serial].at + LIFETIME)
      && (i < |w.log| ==> w.log[i].serial < |w.issued| && w.log[i].at <= w.issued[w.log[i].serial].at + LIFETIME)
  {
    var w := After(c, t0, evs);
    StartInv(c, t0);
    AfterInv(c, t0, evs);
    PunctualRun(c, Start(t0), evs);
    if k in w.server.cache {
      EveryRunTimesChallenges(c, t0, evs, k, k);
    }
  }

  // ----- a challenge is only lost to its own login, verification or timer -----

  ghost predicate Touches(ev: Event, u: nat, d: nat) {
    (ev.Login? || ev.Verify?) && ev.user == u && ev.device == d
  }

  ghost predicate Caches(w: World, u: nat, d: nat, entry: Entry) {
    PairKey(u, d) in w.server.cache && w.server.cache[PairKey(u, d)] == entry
  }

  lemma ApplyKeepsChallenge(c: Crypto, w: World, ev: Event, u: nat, d: nat, entry: Entry)
    requires Inv(c, w) && Caches(w, u, d, entry) && !Touches(ev, u, d)
    requires ev != Fire(entry.serial) || !Due(w, entry.serial)
    ensures Caches(Apply(c, w, ev), u, d, entry)
  {
    if ev.Login? || ev.Verify? {
      if PairKey(ev.user, ev.device) == PairKey(u, d) {
        PairKeyInjective(ev.user, ev.device, u, d);
        assert false;
      }
    }
  }

  lemma ApplyKeepsTime(c: Crypto, w: World, ev: Event)
    ensures w.now <= Apply(c, w, ev).now
    ensures w.issued <= Apply(c, w, ev).issued
  {
  }

  /**
   For less than three minutes a challenge stays exactly as issued until its own device verifies or
   logs in again, whichever other timers, replaced or consumed ones included, go off meanwhile.
   */
  lemma {:induction false} ChallengeSurvives(
    c: Crypto, w: World, more: seq<Event>, u: nat, d: nat, entry: Entry)
    requires Inv(c, w) && Caches(w, u, d, entry)
    requires UntouchedBy(more, u, d)
    requires entry.serial < |w.issued| && Run(c, w, more).now < w.issued[entry.serial].at + LIFETIME
    ensures Caches(Run(c, w, more), u, d, entry)
    ensures w.issued <= Run(c, w, more).issued
    decreases |more|
  {
    if more != [] {
      var v := Run(c, w, Front(more));
      ApplyKeepsTime(c, v, Last(more));
      ChallengeSurvives(c, w, Front(more), u, d, entry);
      RunKeepsInv(c, w, Front(more));
      assert entry.serial in v.server.timers && KeyOf(v.issued, entry.serial, PairKey(u, d));
      ApplyKeepsChallenge(c, v, Last(more), u, d, entry);
    }
  }

  /** A device that signs the timestamp it was sent, within three minutes, gets its session, and only once. */
  lemma TimelySignatureLogsIn(
    c: Crypto, t0: nat, evs: seq<Event>, more: seq<Event>, u: nat, d: nat, t: nat, signature: Bytes, token: string)
    requires LoginStep(c, After(c, t0, evs).server, After(c, t0, evs).now, u, d).1 == Ok(t)
    requires UntouchedBy(more, u, d)
    requires var w' := After(c, t0, evs + [Login(u, d)] + more);
      && w'.now < t + LIFETIME && signature != []
      && DeviceKey(w'.server.devices, u, d).Some?
      && c.verify(DeviceKey(w'.server.devices, u, d).value, c.marshal(u, d, t), signature)
    ensures var w' := After(c, t0, evs + [Login(u, d)] + more);
      var s' := VerifyStep(c, w'.server, u, d, signature, Some(token));
      && s'.1 == Ok(token)
      && PairKey(u, d) in s'.0.sessions
      && VerifyStep(c, s'.0, u, d, signature, Some(token)).1 == Unauthenticated
  {
    var w, v := After(c, t0, evs), After(c, t0, evs + [Login(u, d)]);
    AfterInv(c, t0, evs);
    AfterInv(c, t0, evs + [Login(u, d)]);
    AfterLast(c, t0, evs, Login(u, d));
    RunSplit(c, Start(t0), evs + [Login(u, d)], more);
    ChallengeSurvives(c, v, more, u, d, Entry(|w.issued|, c.marshal(u, d, w.now)));
  }

  /** The device neither asks for a challenge nor tries to verify one. */
  ghost predicate UntouchedBy(evs: seq<Event>, u: nat, d: nat) {
    forall j | 0 <= j < |evs| :: !Touches(evs[j], u, d)
  }

  // ----- one attempt a challenge -----

  /** Any attempt with ids and a signature uses up the device's challenge, and no other one. */
  lemma AttemptConsumes(c: Crypto, s: Server, u: nat, d: nat, signature: Bytes, token: Option<string>)
    requires u != 0 && d != 0 && signature != []
    ensures var s' := VerifyStep(c, s, u, d, signature, token).0;
      && PairKey(u, d) !in s'.cache
      && (forall k | k != PairKey(u, d) ::
            (k in s'.cache <==> k in s.cache) && (k in s.cache ==> s'.cache[k] == s.cache[k]))
      && s' == s.(cache := s'.cache, sessions := s'.sessions)
  {
  }

  /** Without a challenge an attempt is refused and leaves everything as it is. */
  lemma NoChallengeNoLogin(c: Crypto, w: World, u: nat, d: nat, signature: Bytes, token: Option<string>)
    requires PairKey(u, d) !in w.server.cache
    ensures Apply(c, w, Verify(u, d, signature, token)) == w
    ensures !VerifyStep(c, w.server, u, d, signature, token).1.Ok?
  {
  }

  ghost predicate NoLogin(evs: seq<Event>, u: nat, d: nat) { Login(u, d) !in evs }

  lemma ApplyKeepsUncached(c: Crypto, w: World, ev: Event, u: nat, d: nat)
    requires PairKey(u, d) !in w.server.cache && ev != Login(u, d)
    ensures PairKey(u, d) !in Apply(c, w, ev).server.cache
  {
    if ev.Login? && PairKey(ev.user, ev.device) == PairKey(u, d) {
      PairKeyInjective(ev.user, ev.device, u, d);
      assert false;
    }
  }

  lemma {:induction false} RunKeepsUncached(c: Crypto, w: World, evs: seq<Event>, u: nat, d: nat)
    requires PairKey(u, d) !in w.server.cache && NoLogin(evs, u, d)
    ensures PairKey(u, d) !in Run(c, w, evs).server.cache
    decreases |evs|
  {
    if evs != [] {
      assert Last(evs) in evs && forall ev | ev in Front(evs) :: ev in evs;
      RunKeepsUncached(c, w, Front(evs), u, d);
      ApplyKeepsUncached(c, Run(c, w, Front(evs)), Last(evs), u, d);
    }
  }

  /**
   In every run: after one attempt, good or bad, every further attempt changes nothing at all and is
   refused, until the device asks for a new challenge.
   */
  lemma OneAttemptPerChallenge(
    c: Crypto, t0: nat, evs: seq<Event>, more: seq<Event>, u: nat, d: nat,
    first: Bytes, token: Option<string>, second: Bytes, token': Option<string>)
    requires u != 0 && d != 0 && first != [] && NoLogin(more, u, d)
    ensures var w := After(c, t0, evs + [Verify(u, d, first, token)] + more);
      && After(c, t0, evs + [Verify(u, d, first, token)] + more + [Verify(u, d, second, token')]) == w
      && !VerifyStep(c, w.server, u, d, second, token').1.Ok?
  {
    var attempt := evs + [Verify(u, d, first, token)];
    AfterLast(c, t0, evs, Verify(u, d, first, token));
    AttemptConsumes(c, After(c, t0, evs).server, u, d, first, token);
    RunSplit(c, Start(t0), attempt, more);
    RunKeepsUncached(c, After(c, t0, attempt), more, u, d);
    AfterLast(c, t0, attempt + more, Verify(u, d, second, token'));
    NoChallengeNoLogin(c, After(c, t0, attempt + more), u, d, second, token');
  }

  /** The reply carries the time whose challenge is cached, under a new serial and with its own timer. */
  lemma LoginEffect(c: Crypto, t0: nat, evs: seq<Event>, u: nat, d: nat, t: nat)
    requires LoginStep(c, After(c, t0, evs).server, After(c, t0, evs).now, u, d).1 == Ok(t)
    ensures var s, s' := After(c, t0, evs).server, After(c, t0, evs + [Login(u, d)]).server;
      && t == After(c, t0, evs).now
      && PairKey(u, d) in s'.cache
      && (var e := s'.cache[PairKey(u, d)].serial;
          && e !in s.timers
          && s' == s.(cache := s.cache[PairKey(u, d) := Entry(e, c.marshal(u, d, t))],
                      timers := s.timers[e := Timer(PairKey(u, d), t + 180)],
                      nextEntry := s'.nextEntry))
  {
    AfterInv(c, t0, evs);
    AfterLast(c, t0, evs, Login(u, d));
  }

  /** A refused login says why, and leaves everything as it is. */
  lemma LoginRefused(c: Crypto, t0: nat, evs: seq<Event>, u: nat, d: nat)
    ensures var w := After(c, t0, evs);
      var reply := LoginStep(c, w.server, w.now, u, d).1;
      && (reply == InvalidArgument <==> u == 0 || d == 0)
      && (reply == NotFound <==> u != 0 && d != 0 && DeviceKey(w.server.devices, u, d).None?)
      && (reply.Ok? <==> u != 0 && d != 0 && DeviceKey(w.server.devices, u, d).Some?)
      && (!reply.Ok? ==> After(c, t0, evs + [Login(u, d)]) == w)
  {
    AfterLast(c, t0, evs, Login(u, d));
  }

  /** Each reply to a verification, in terms of what is cached and of what the signature proves. */
  lemma VerifyReplies(c: Crypto, s: Server, u: nat, d: nat, signature: Bytes, token: Option<string>)
    ensures var (s', reply) := VerifyStep(c, s, u, d, signature, token);
      var known := u != 0 && d != 0 && signature != [] && PairKey(u, d) in s.cache;
      && (reply == InvalidArgument <==> u == 0 || d == 0 || signature == [])
      && (reply == NotFound <==> known && DeviceKey(s.devices, u, d).None?)
      && (reply.Ok? <==> Proves(c, s, u, d, signature) && token.Some?)
      && (reply.Ok? ==> reply.value == token.value)
      && (reply == Internal <==> Proves(c, s, u, d, signature) && token.None?)
      && (reply == Unauthenticated <==>
            u != 0 && d != 0 && signature != [] && !Proves(c, s, u, d, signature)
            && !(known && DeviceKey(s.devices, u, d).None?))
  {
  }

  /** A timer that is due takes its own entry, if that is still there, and itself, and nothing else. */
  lemma FireEffect(c: Crypto, t0: nat, evs: seq<Event>, e: nat)
    requires Due(After(c, t0, evs), e)
    ensures var s, s' := After(c, t0, evs).server, After(c, t0, evs + [Fire(e)]).server;
      && s' == s.(cache := s'.cache, timers := s.timers - {e})
      && (forall k | k in s'.cache :: k in s.cache && s'.cache[k] == s.cache[k])
      && (forall k | k in s.cache :: k in s'.cache <==> s.cache[k].serial != e)
  {
    var s := After(c, t0, evs).server;
    AfterInv(c, t0, evs);
    AfterLast(c, t0, evs, Fire(e));
    forall k | k in s.cache && s.cache[k].serial == e
      ensures k == s.timers[e].key
    {
      assert KeyOf(After(c, t0, evs).issued, s.cache[k].serial, k);
    }
  }

  // ----- what a later login can rest on -----

  /** The activation used the challenge that is cached here for its device. */
  ghost predicate UsesCached(w: World, a: Activation) {
    PairKey(a.user, a.device) in w.server.cache && w.server.cache[PairKey(a.user, a.device)].serial == a.serial
  }

  /** w' comes after w: challenges issued before are cached still or not at all, and used only from here. */
  ghost predicate Later(w: World, w': World) {
    && w.now <= w'.now && w.issued <= w'.issued && w.log <= w'.log
    && (forall e | |w.issued| <= e < |w'.issued| :: w.now <= w'.issued[e].at)
    && (forall k | k in w'.server.cache && w'.server.cache[k].serial < |w.issued| ::
          k in w.server.cache && w.server.cache[k] == w'.server.cache[k])
    && (forall i | |w.log| <= i < |w'.log| && w'.log[i].serial < |w.issued| :: UsesCached(w, w'.log[i]))
  }

  lemma LoginIsLater(c: Crypto, w: World, v: World, u: nat, d: nat)
    requires Later(w, v) && Inv(c, v)
    ensures Later(w, AfterLogin(c, v, u, d))
  {
  }

  lemma VerifyIsLater(
    c: Crypto, w: World, v: World, u: nat, d: nat, signature: Bytes, token: Option<string>)
    requires Later(w, v) && Inv(c, v)
    ensures Later(w, AfterVerify(c, v, u, d, signature, token))
  {
  }

  lemma ApplyIsLater(c: Crypto, w: World, v: World, ev: Event)
    requires Later(w, v) && Inv(c, v)
    ensures Later(w, Apply(c, v, ev))
  {
    match ev
    case Login(u, d) => LoginIsLater(c, w, v, u, d);
    case Verify(u, d, signature, token) => VerifyIsLater(c, w, v, u, d, signature, token);
    case _ =>
  }

  lemma {:induction false} RunIsLater(c: Crypto, w: World, evs: seq<Event>)
    requires Inv(c, w)
    ensures Later(w, Run(c, w, evs))
    decreases |evs|
  {
    if evs != [] {
      RunIsLater(c, w, Front(evs));
      RunKeepsInv(c, w, Front(evs));
      ApplyIsLater(c, w, Run(c, w, Front(evs)), Last(evs));
    }
  }

  /** A signature that fits the challenge which a login at time t would issue. */
  ghost predicate SignsAt(c: Crypto, w: World, u: nat, d: nat, signature: Bytes, t: nat) {
    && u != 0 && d != 0 && signature != [] && t >= w.now
    && DeviceKey(w.server.devices, u, d).Some?
    && c.verify(DeviceKey(w.server.devices, u, d).value, c.marshal(u, d, t), signature)
  }

  /** The device has a session, or can still get one. */
  ghost predicate MayLogIn(c: Crypto, w: World, u: nat, d: nat) {
    && DeviceKey(w.server.devices, u, d).Some?
    && (|| PairKey(u, d) in w.server.sessions
        || (exists signature :: Proves(c, w.server, u, d, signature))
        || (exists signature, t :: SignsAt(c, w, u, d, signature, t)))
  }

  /** Where a session comes from: it was there, or a cached challenge or a later one was signed. */
  lemma SessionHasCause(c: Crypto, w: World, evs: seq<Event>, u: nat, d: nat)
    requires Inv(c, w) && Run(c, w, evs).server.devices == w.server.devices
    requires PairKey(u, d) in Run(c, w, evs).server.sessions
    ensures MayLogIn(c, w, u, d)
  {
    var w' := Run(c, w, evs);
    RunKeepsInv(c, w, evs);
    RunIsLater(c, w, evs);
    var i :| 0 <= i < |w'.log| && w'.log[i].user == u && w'.log[i].device == d;
    if i < |w.log| {
      assert w.log[i] == w'.log[i];
      assert Activated(w.log, u, d);
    } else {
      ActivationHasCause(c, w, w', i);
    }
  }

  lemma ActivationHasCause(c: Crypto, w: World, w': World, i: nat)
    requires Inv(c, w) && Inv(c, w') && Later(w, w') && |w.log| <= i < |w'.log|
    requires w'.server.devices == w.server.devices
    requires DeviceKey(w.server.devices, w'.log[i].user, w'.log[i].device).Some?
    ensures MayLogIn(c, w, w'.log[i].user, w'.log[i].device)
  {
    var a := w'.log[i];
    assert ActivationOk(c, w'.server.devices, w'.now, w'.issued, a);
    if a.serial < |w.issued| {
      assert UsesCached(w, a) && w.issued[a.serial] == w'.issued[a.serial];
      assert Proves(c, w.server, a.user, a.device, a.signature);
    } else {
      assert SignsAt(c, w, a.user, a.device, a.signature, w'.issued[a.serial].at);
    }
  }

  lemma ProofLogsIn(c: Crypto, w: World, u: nat, d: nat, signature: Bytes)
    requires Proves(c, w.server, u, d, signature)
    ensures PairKey(u, d) in Apply(c, w, Verify(u, d, signature, None)).server.sessions
  {
  }

  lemma SignatureLogsIn(c: Crypto, w: World, u: nat, d: nat, signature: Bytes, t: nat)
    requires SignsAt(c, w, u, d, signature, t)
    ensures Proves(c, Apply(c, Apply(c, w, Advance(t - w.now)), Login(u, d)).server, u, d, signature)
  {
  }
}
