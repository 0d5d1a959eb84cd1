/**
 The interceptor in front of the whole server.  A call that needs claims runs only if its header
 authenticates, and then on behalf of the user in the token.
 */
module Gateway {
  import opened Wrappers
  import opened Paths
  import opened Tables
  import opened Permissions
  import opened Tree
  import opened Access
  import opened Sessions
  import opened WholeServer
  import FolderServices
  import Replies
  import Runs
  import SessionRuns

  /** A call with the authorization header of its metadata; the caller named in the call is not trusted. */
  datatype Rpc = Rpc(header: Option<seq<string>>, call: Call)

  /** Logging in needs no claims; time, timers and grants are not requests at all. */
  predicate NeedsClaims(call: Call) {
    call.Register? || call.Revoke? || (call.Workspace? && !call.req.Grant?)
  }

  /** The full method name of a call; time, timers and grants have none. */
  function MethodOf(call: Call): Option<string> {
    match call
    case Login(_, _) => Some("/v1.UserService/LoginUser")
    case Verify(_, _, _, _) => Some("/v1.UserService/VerifyLoginSignature")
    case Register(_, _, _) => Some("/v1.UserService/RegisterDevice")
    case Revoke(_, _, _) => Some("/v1.UserService/RevokeDevice")
    case Fire(_) => None
    case Advance(_) => None
    case Workspace(req) => RequestMethod(req)
  }

  function RequestMethod(req: Runs.Request): Option<string> {
    match req
    case CreateFolder(_, _, _, _, _) => Some("/v1.FolderService/CreateFolder")
    case MoveFolder(_, _, _) => Some("/v1.FolderService/MoveFolder")
    case DeleteFolder(_, _, _) => Some("/v1.FolderService/DeleteFolder")
    case Grant(_, _, _) => None
    case UploadFile(_, _, _, _, _) => Some("/v1.FileService/UploadFile")
    case UploadVersion(_, _, _) => Some("/v1.FileService/UploadVersion")
    case ModifyFile(_, _, _, _, _) => Some("/v1.FileService/ModifyFile")
    case SetRetention(_, _, _) => Some("/v1.FileService/SetRetentionPolicy")
    case DeleteFile(_, _, _) => Some("/v1.FileService/DeleteFile")
  }

  /** Claims are needed exactly for the methods that are not on the list of the interceptor. */
  lemma NeedsClaimsByMethod(call: Call)
    ensures NeedsClaims(call) <==> MethodOf(call).Some? && MethodOf(call).value !in EXEMPT
  {
    assert |EXEMPT| == 2 && EXEMPT[0] == "/v1.UserService/LoginUser";
    assert EXEMPT[1] == "/v1.UserService/VerifyLoginSignature";
    if MethodOf(call).Some? && NeedsClaims(call) {
      assert |MethodOf(call).value| != |EXEMPT[0]| && |MethodOf(call).value| != |EXEMPT[1]|;
    }
  }

  /** A bearer token and a bare one are read alike. */
  lemma BearerOrBare(token: string)
    ensures TrimBearer("Bearer " + token) == token
    ensures !("Bearer " <= token) ==> TrimBearer(token) == token
  {
  }

  function AsUser(req: Runs.Request, u: nat): Runs.Request { req.(user := u) }

  /** The handler takes its caller from the claims. */
  function Behalf(call: Call, u: nat): Call {
    match call
    case Workspace(req) => Workspace(AsUser(req, u))
    case Register(_, v, key) => Register(u, v, key)
    case Revoke(_, v, d) => Revoke(u, v, d)
    case _ => call
  }

  /** The claims the interceptor finds, if it lets the request in. */
  function ClaimsOf(decrypt: string -> Option<Claims>, s: State, header: Option<seq<string>>): Option<Claims> {
    var reply := AuthenticateStep(decrypt, s.users.server.sessions, header);
    if reply.Ok? then Some(reply.value) else None
  }

  /** The call that reaches a handler. */
  function Admitted(decrypt: string -> Option<Claims>, s: State, rpc: Rpc): seq<Call> {
    if !NeedsClaims(rpc.call) then [rpc.call]
    else
      var claims := ClaimsOf(decrypt, s, rpc.header);
      if claims.Some? then [Behalf(rpc.call, claims.value.user)] else []
  }

  ghost function Step(
    digest: Bytes -> Bytes, c: Crypto, decrypt: string -> Option<Claims>, s: State, rpc: Rpc): State
  {
    var calls := Admitted(decrypt, s, rpc);
    if calls == [] then s else Apply(digest, c, s, calls[0])
  }

  ghost function Serve(
    digest: Bytes -> Bytes, c: Crypto, decrypt: string -> Option<Claims>, s: State, rpcs: seq<Rpc>): State
    decreases |rpcs|
  {
    if rpcs == [] then s else Step(digest, c, decrypt, Serve(digest, c, decrypt, s, Front(rpcs)), Last(rpcs))
  }

  /** All calls of a run that reach a handler. */
  ghost function CallsOf(
    digest: Bytes -> Bytes, c: Crypto, decrypt: string -> Option<Claims>, s: State, rpcs: seq<Rpc>): seq<Call>
    decreases |rpcs|
  {
    if rpcs == [] then []
    else
      var before := Serve(digest, c, decrypt, s, Front(rpcs));
      CallsOf(digest, c, decrypt, s, Front(rpcs)) + Admitted(decrypt, before, Last(rpcs))
  }

  /** What the interceptor lets through is a run of the server, so all that holds of its runs holds here. */
  lemma {:induction false} ServeProjects(
    digest: Bytes -> Bytes, c: Crypto, decrypt: string -> Option<Claims>, s: State, rpcs: seq<Rpc>)
    ensures Serve(digest, c, decrypt, s, rpcs) == Run(digest, c, s, CallsOf(digest, c, decrypt, s, rpcs))
    decreases |rpcs|
  {
    if rpcs != [] {
      var before := Serve(digest, c, decrypt, s, Front(rpcs));
      var calls := CallsOf(digest, c, decrypt, s, Front(rpcs));
      ServeProjects(digest, c, decrypt, s, Front(rpcs));
      if Admitted(decrypt, before, Last(rpcs)) == [] {
        assert CallsOf(digest, c, decrypt, s, rpcs) == calls;
      } else {
        var call := Admitted(decrypt, before, Last(rpcs))[0];
        assert CallsOf(digest, c, decrypt, s, rpcs) == calls + [call];
        CallStep(digest, c, s, calls, call);
      }
    }
  }

  lemma ServeLast(
    digest: Bytes -> Bytes, c: Crypto, decrypt: string -> Option<Claims>, s: State, rpcs: seq<Rpc>, rpc: Rpc)
    ensures Serve(digest, c, decrypt, s, rpcs + [rpc])
         == Step(digest, c, decrypt, Serve(digest, c, decrypt, s, rpcs), rpc)
  {
    assert Front(rpcs + [rpc]) == rpcs;
  }

  /** Requests lead from reachable states to reachable states. */
  lemma ServedIsReachable(
    digest: Bytes -> Bytes, c: Crypto, decrypt: string -> Option<Claims>, t0: nat, s: State, rpcs: seq<Rpc>)
    requires Reachable(digest, c, t0, s)
    ensures Reachable(digest, c, t0, Serve(digest, c, decrypt, s, rpcs))
  {
    var calls :| s == Run(digest, c, Start(t0), calls);
    ServeProjects(digest, c, decrypt, s, rpcs);
    RunSplit(digest, c, Start(t0), calls, CallsOf(digest, c, decrypt, s, rpcs));
  }

  // ----- who can change anything -----

  lemma ReachableUsers(digest: Bytes -> Bytes, c: Crypto, t0: nat, s: State, u: nat, d: nat)
    requires Reachable(digest, c, t0, s)
    ensures PairKey(u, d) in s.users.server.sessions <==>
              DeviceKey(s.users.server.devices, u, d).Some? && SessionRuns.Activated(s.users.log, u, d)
  {
    ReachableInv(digest, c, t0, s);
  }

  /** The claims of a request's token, before any session is looked up. */
  function TokenOf(decrypt: string -> Option<Claims>, header: Option<seq<string>>): Option<Claims> {
    if header.None? || header.value == [] then None else decrypt(TrimBearer(header.value[0]))
  }

  /**
   In any reachable state, a request is let in exactly if its token names a registered, unrevoked device
   that has logged in; it then acts for that device's user, and otherwise changes nothing.
   */
  lemma EffectNeedsDevice(
    digest: Bytes -> Bytes, c: Crypto, decrypt: string -> Option<Claims>, t0: nat, s: State, rpc: Rpc)
    requires Reachable(digest, c, t0, s) && NeedsClaims(rpc.call)
    ensures var token := TokenOf(decrypt, rpc.header);
      if token.Some? && Entitles(s, token.value) then
        && ClaimsOf(decrypt, s, rpc.header) == token
        && Step(digest, c, decrypt, s, rpc) == Apply(digest, c, s, Behalf(rpc.call, token.value.user))
      else
        && ClaimsOf(decrypt, s, rpc.header) == None
        && Step(digest, c, decrypt, s, rpc) == s
  {
    var token := TokenOf(decrypt, rpc.header);
    if token.Some? {
      ReachableUsers(digest, c, t0, s, token.value.user, token.value.device);
    }
  }

  /** The device is registered to the user, not revoked, and has logged in. */
  ghost predicate Entitles(s: State, claims: Claims) {
    && DeviceKey(s.users.server.devices, claims.user, claims.device).Some?
    && SessionRuns.Activated(s.users.log, claims.user, claims.device)
  }

  // ----- users without a device -----

  ghost predicate NoDevice(s: State, u: nat) { forall d: nat :: DeviceKey(s.users.server.devices, u, d).None? }

  lemma {:induction false} EventKeepsNoDevice(c: Crypto, w: SessionRuns.World, ev: SessionRuns.Event, u: nat)
    requires forall d: nat :: DeviceKey(w.server.devices, u, d).None?
    requires ev.Register? ==> ev.user != u
    ensures forall d: nat :: DeviceKey(SessionRuns.Apply(c, w, ev).server.devices, u, d).None?
  {
    forall d: nat
      ensures DeviceKey(SessionRuns.Apply(c, w, ev).server.devices, u, d).None?
    {
      assert DeviceKey(w.server.devices, u, d).None?;
    }
  }

  lemma StepKeepsNoDevice(
    digest: Bytes -> Bytes, c: Crypto, decrypt: string -> Option<Claims>, s: State, rpc: Rpc, u: nat)
    requires NoDevice(s, u) && !(rpc.call.Register? && rpc.call.user == u)
    ensures NoDevice(Step(digest, c, decrypt, s, rpc), u)
  {
    var calls := Admitted(decrypt, s, rpc);
    if calls != [] && !calls[0].Workspace? {
      EventKeepsNoDevice(c, s.users, EventOf(s.work.db, calls[0]), u);
    }
  }

  lemma {:induction false} ServeKeepsNoDevice(
    digest: Bytes -> Bytes, c: Crypto, decrypt: string -> Option<Claims>, s: State, rpcs: seq<Rpc>, u: nat)
    requires NoDevice(s, u)
    requires forall j | 0 <= j < |rpcs| :: !(rpcs[j].call.Register? && rpcs[j].call.user == u)
    ensures NoDevice(Serve(digest, c, decrypt, s, rpcs), u)
    decreases |rpcs|
  {
    if rpcs != [] {
      ServeKeepsNoDevice(digest, c, decrypt, s, Front(rpcs), u);
      StepKeepsNoDevice(digest, c, decrypt, Serve(digest, c, decrypt, s, Front(rpcs)), Last(rpcs), u);
    }
  }

  lemma {:induction false} ServeSplit(
    digest: Bytes -> Bytes, c: Crypto, decrypt: string -> Option<Claims>, s: State, a: seq<Rpc>, b: seq<Rpc>)
    ensures Serve(digest, c, decrypt, s, a + b) == Serve(digest, c, decrypt, Serve(digest, c, decrypt, s, a), b)
    decreases |b|
  {
    if b == [] {
      assert a + b == a;
    } else {
      ServeSplit(digest, c, decrypt, s, a, Front(b));
      assert Front(a + b) == a + Front(b) && Last(a + b) == Last(b);
    }
  }

  /**
   Once all devices of a user are revoked, no request with a token of that user changes anything, until
   somebody asks to register a new device for the user.
   */
  lemma {:induction false} UserWithoutDeviceIsOut(
    digest: Bytes -> Bytes, c: Crypto, decrypt: string -> Option<Claims>, t0: nat,
    s: State, more: seq<Rpc>, rpc: Rpc, u: nat)
    requires Reachable(digest, c, t0, s) && NoDevice(s, u)
    requires forall j | 0 <= j < |more| :: !(more[j].call.Register? && more[j].call.user == u)
    requires NeedsClaims(rpc.call)
    requires TokenOf(decrypt, rpc.header).Some? && TokenOf(decrypt, rpc.header).value.user == u
    ensures Serve(digest, c, decrypt, s, more + [rpc]) == Serve(digest, c, decrypt, s, more)
  {
    ServedIsReachable(digest, c, decrypt, t0, s, more);
    ServeKeepsNoDevice(digest, c, decrypt, s, more, u);
    EffectNeedsDevice(digest, c, decrypt, t0, Serve(digest, c, decrypt, s, more), rpc);
    ServeLast(digest, c, decrypt, s, more, rpc);
  }

  // ----- when anybody gets in -----

  /** The token names a device that has a session or can still get one. */
  ghost predicate Enters(c: Crypto, decrypt: string -> Option<Claims>, s: State, token: string) {
    decrypt(token).Some? && SessionRuns.MayLogIn(c, s.users, decrypt(token).value.user, decrypt(token).value.device)
  }

  lemma OpenHasCause(digest: Bytes -> Bytes, c: Crypto, decrypt: string -> Option<Claims>, s: State, rpcs: seq<Rpc>)
    requires SessionRuns.Inv(c, s.users) && Open(decrypt, Serve(digest, c, decrypt, s, rpcs))
    ensures exists token :: Enters(c, decrypt, s, token)
  {
    var k := FirstOpen(digest, c, decrypt, s, rpcs);
    assert rpcs[..|rpcs|] == rpcs;
    var before := Serve(digest, c, decrypt, s, rpcs[..k]);
    var header :| ClaimsOf(decrypt, before, header).Some?;
    var claims := ClaimsOf(decrypt, before, header).value;
    var evs := EventsServed(digest, c, decrypt, s, rpcs[..k]);
    SessionRuns.SessionHasCause(c, s.users, evs, claims.user, claims.device);
    assert Enters(c, decrypt, s, TrimBearer(header.value[0]));
  }

  lemma EventsServed(digest: Bytes -> Bytes, c: Crypto, decrypt: string -> Option<Claims>, s: State, rpcs: seq<Rpc>)
    returns (evs: seq<SessionRuns.Event>)
    ensures Serve(digest, c, decrypt, s, rpcs).users == SessionRuns.Run(c, s.users, evs)
  {
    var calls := CallsOf(digest, c, decrypt, s, rpcs);
    ServeProjects(digest, c, decrypt, s, rpcs);
    RunProjects(digest, c, s, calls);
    evs := EventsOf(digest, c, s, calls);
  }

  function HeaderWith(token: string): Option<seq<string>> { Some([BEARER + token]) }

  lemma SessionOpens(decrypt: string -> Option<Claims>, s: State, token: string)
    requires decrypt(token).Some?
    requires PairKey(decrypt(token).value.user, decrypt(token).value.device) in s.users.server.sessions
    ensures ClaimsOf(decrypt, s, HeaderWith(token)) == decrypt(token)
  {
    assert TrimBearer(BEARER + token) == token;
  }

  function Public(call: Call): Rpc { Rpc(None, call) }

  /** Requests that log the device in. */
  lemma LogsIn(digest: Bytes -> Bytes, c: Crypto, decrypt: string -> Option<Claims>, s: State, u: nat, d: nat)
    returns (rpcs: seq<Rpc>)
    requires SessionRuns.MayLogIn(c, s.users, u, d)
    ensures PairKey(u, d) in Serve(digest, c, decrypt, s, rpcs).users.server.sessions
  {
    if PairKey(u, d) in s.users.server.sessions {
      return [];
    }
    if signature :| Proves(c, s.users.server, u, d, signature) {
      rpcs := ProofLogsIn(digest, c, decrypt, s, [], u, d, signature);
    } else {
      var signature, t: nat :| SessionRuns.SignsAt(c, s.users, u, d, signature, t);
      rpcs := SignatureLogsIn(digest, c, decrypt, s, u, d, signature, t);
    }
  }

  lemma SignatureLogsIn(
    digest: Bytes -> Bytes, c: Crypto, decrypt: string -> Option<Claims>, s: State,
    u: nat, d: nat, signature: Bytes, t: nat)
    returns (rpcs: seq<Rpc>)
    requires SessionRuns.SignsAt(c, s.users, u, d, signature, t)
    ensures PairKey(u, d) in Serve(digest, c, decrypt, s, rpcs).users.server.sessions
  {
    var wait, login := Advance(t - s.users.now), Login(u, d);
    SessionRuns.SignatureLogsIn(c, s.users, u, d, signature, t);
    TwoPublic(digest, c, decrypt, s, wait, login);
    rpcs := ProofLogsIn(digest, c, decrypt, s, [Public(wait)] + [Public(login)], u, d, signature);
  }

  lemma TwoPublic(
    digest: Bytes -> Bytes, c: Crypto, decrypt: string -> Option<Claims>, s: State, a: Call, b: Call)
    requires !NeedsClaims(a) && !NeedsClaims(b)
    ensures Serve(digest, c, decrypt, s, [Public(a)] + [Public(b)])
         == Apply(digest, c, Apply(digest, c, s, a), b)
  {
    ServeLast(digest, c, decrypt, s, [], Public(a));
    ServeLast(digest, c, decrypt, s, [Public(a)], Public(b));
    assert [] + [Public(a)] == [Public(a)];
  }

  lemma ProofLogsIn(
    digest: Bytes -> Bytes, c: Crypto, decrypt: string -> Option<Claims>, s: State, before: seq<Rpc>,
    u: nat, d: nat, signature: Bytes)
    returns (rpcs: seq<Rpc>)
    requires Proves(c, Serve(digest, c, decrypt, s, before).users.server, u, d, signature)
    ensures PairKey(u, d) in Serve(digest, c, decrypt, s, rpcs).users.server.sessions
  {
    rpcs := before + [Public(Verify(u, d, signature, None))];
    ServeLast(digest, c, decrypt, s, before, Public(Verify(u, d, signature, None)));
    SessionRuns.ProofLogsIn(c, Serve(digest, c, decrypt, s, before).users, u, d, signature);
  }

  /**
   Somebody is ever let in exactly if, now, some token names an unrevoked device that has a session, has a
   cached challenge somebody can sign, or has a key under which somebody can sign a challenge yet to come.
   */
  lemma EverOpenIff(digest: Bytes -> Bytes, c: Crypto, decrypt: string -> Option<Claims>, t0: nat, s: State)
    requires Reachable(digest, c, t0, s)
    ensures (exists rpcs :: Open(decrypt, Serve(digest, c, decrypt, s, rpcs)))
       <==> (exists token :: Enters(c, decrypt, s, token))
  {
    ReachableInv(digest, c, t0, s);
    if rpcs :| Open(decrypt, Serve(digest, c, decrypt, s, rpcs)) {
      OpenHasCause(digest, c, decrypt, s, rpcs);
    }
    if token :| Enters(c, decrypt, s, token) {
      var rpcs := LogsIn(digest, c, decrypt, s, decrypt(token).value.user, decrypt(token).value.device);
      SessionOpens(decrypt, Serve(digest, c, decrypt, s, rpcs), token);
      assert Open(decrypt, Serve(digest, c, decrypt, s, rpcs));
    }
  }

  // ----- when a device can be revoked from outside -----

  /** Some request would be let in. */
  ghost predicate Open(decrypt: string -> Option<Claims>, s: State) {
    exists header :: ClaimsOf(decrypt, s, header).Some?
  }

  /** The devices and folders, which no step changes that lets nobody in. */
  ghost predicate SameTables(s: State, s': State) {
    s'.work.db.folders == s.work.db.folders && s'.users.server.devices == s.users.server.devices
  }

  lemma ClosedStep(
    digest: Bytes -> Bytes, c: Crypto, decrypt: string -> Option<Claims>, s: State, rpc: Rpc)
    requires !Open(decrypt, s)
    ensures SameTables(s, Step(digest, c, decrypt, s, rpc))
  {
    assert ClaimsOf(decrypt, s, rpc.header).None?;
  }

  /** A run either leaves both tables alone or comes by a state that is open and has them still. */
  lemma {:induction false} FirstOpen(
    digest: Bytes -> Bytes, c: Crypto, decrypt: string -> Option<Claims>, s: State, rpcs: seq<Rpc>)
    returns (k: nat)
    ensures k <= |rpcs| && SameTables(s, Serve(digest, c, decrypt, s, rpcs[..k]))
    ensures k < |rpcs| ==> Open(decrypt, Serve(digest, c, decrypt, s, rpcs[..k]))
    decreases |rpcs|
  {
    if rpcs == [] {
      k := 0;
    } else {
      k := FirstOpen(digest, c, decrypt, s, Front(rpcs));
      assert Front(rpcs)[..k] == rpcs[..k];
      var before := Serve(digest, c, decrypt, s, Front(rpcs));
      if k == |rpcs| - 1 && !Open(decrypt, before) {
        assert rpcs[..k] == Front(rpcs);
        ClosedStep(digest, c, decrypt, before, Last(rpcs));
        k := |rpcs|;
        assert rpcs[..k] == rpcs;
      }
    }
  }

  /** Whoever is let in can be made an Admin of a root that answers, and then revokes. */
  lemma OpenRevokes(
    digest: Bytes -> Bytes, c: Crypto, decrypt: string -> Option<Claims>, s: State, header: Option<seq<string>>,
    u: nat, d: nat)
    requires Runs.Inv(digest, s.work) && Rooted(s.work.db.folders, ROOT) && ClaimsOf(decrypt, s, header).Some?
    ensures var a := ClaimsOf(decrypt, s, header).value.user;
      var rpcs := [Rpc(None, MakeAdmin(a))] + [Rpc(header, Revoke(0, u, d))];
      DeviceKey(Serve(digest, c, decrypt, s, rpcs).users.server.devices, u, d) == None
  {
    var a := ClaimsOf(decrypt, s, header).value.user;
    var grant, revoke := Rpc(None, MakeAdmin(a)), Rpc(header, Revoke(0, u, d));
    assert Front([grant]) == [] && Front([grant] + [revoke]) == [grant];
    assert Serve(digest, c, decrypt, s, [grant]) == Apply(digest, c, s, MakeAdmin(a));
    AdminRevokes(digest, c, s, a, u, d);
    TwoCalls(digest, c, s, MakeAdmin(a), Revoke(a, u, d));
  }

  /**
   A registered device can still be revoked by requests exactly if the permission query answers on the
   root and some token names a device that is logged in or can still log in.
   */
  lemma RevocableByRequestIff(
    digest: Bytes -> Bytes, c: Crypto, decrypt: string -> Option<Claims>, t0: nat, s: State, u: nat, d: nat, v: nat)
    requires Reachable(digest, c, t0, s) && DeviceKey(s.users.server.devices, u, d).Some?
    ensures (exists rpcs :: DeviceKey(Serve(digest, c, decrypt, s, rpcs).users.server.devices, u, d) == None)
       <==> Effective(s.work.db.folders, s.work.db.grants, v, ROOT).Some?
            && exists token :: Enters(c, decrypt, s, token)
  {
    ReachableInv(digest, c, t0, s);
    RootAnswers(s.work.db, v);
    EverOpenIff(digest, c, decrypt, t0, s);
    if rpcs :| DeviceKey(Serve(digest, c, decrypt, s, rpcs).users.server.devices, u, d) == None {
      RevokedWasOpen(digest, c, decrypt, s, rpcs, u, d);
    }
    if Rooted(s.work.db.folders, ROOT) {
      if rpcs :| Open(decrypt, Serve(digest, c, decrypt, s, rpcs)) {
        OpenWillRevoke(digest, c, decrypt, s, rpcs, u, d);
      }
    }
  }

  lemma RevokedWasOpen(
    digest: Bytes -> Bytes, c: Crypto, decrypt: string -> Option<Claims>, s: State, rpcs: seq<Rpc>, u: nat, d: nat)
    requires Runs.Inv(digest, s.work) && ROOT in s.work.db.folders && DeviceKey(s.users.server.devices, u, d).Some?
    requires DeviceKey(Serve(digest, c, decrypt, s, rpcs).users.server.devices, u, d) == None
    ensures Rooted(s.work.db.folders, ROOT)
    ensures exists more :: Open(decrypt, Serve(digest, c, decrypt, s, more))
  {
    if !Rooted(s.work.db.folders, ROOT) {
      ServeProjects(digest, c, decrypt, s, rpcs);
      RunFreezes(digest, c, s, CallsOf(digest, c, decrypt, s, rpcs));
      assert false;
    }
    var k := FirstOpen(digest, c, decrypt, s, rpcs);
    assert rpcs[..|rpcs|] == rpcs;
    assert k < |rpcs|;
  }

  lemma OpenWillRevoke(
    digest: Bytes -> Bytes, c: Crypto, decrypt: string -> Option<Claims>, s: State, rpcs: seq<Rpc>, u: nat, d: nat)
    requires Runs.Inv(digest, s.work) && Rooted(s.work.db.folders, ROOT)
    requires Open(decrypt, Serve(digest, c, decrypt, s, rpcs))
    ensures exists more :: DeviceKey(Serve(digest, c, decrypt, s, more).users.server.devices, u, d) == None
  {
    var k := FirstOpen(digest, c, decrypt, s, rpcs);
    assert rpcs[..|rpcs|] == rpcs;
    var before := Serve(digest, c, decrypt, s, rpcs[..k]);
    ServeKeepsInv(digest, c, decrypt, s, rpcs[..k]);
    SameFoldersRooted(s.work.db.folders, before.work.db.folders);
    var last := OpenRevokesNow(digest, c, decrypt, before, u, d);
    ServeSplit(digest, c, decrypt, s, rpcs[..k], last);
  }

  lemma OpenRevokesNow(
    digest: Bytes -> Bytes, c: Crypto, decrypt: string -> Option<Claims>, s: State, u: nat, d: nat)
    returns (rpcs: seq<Rpc>)
    requires Runs.Inv(digest, s.work) && Rooted(s.work.db.folders, ROOT) && Open(decrypt, s)
    ensures DeviceKey(Serve(digest, c, decrypt, s, rpcs).users.server.devices, u, d) == None
  {
    var header :| ClaimsOf(decrypt, s, header).Some?;
    OpenRevokes(digest, c, decrypt, s, header, u, d);
    rpcs := [Rpc(None, MakeAdmin(ClaimsOf(decrypt, s, header).value.user))] + [Rpc(header, Revoke(0, u, d))];
  }

  lemma SameFoldersRooted(fs: Folders, fs': Folders)
    requires fs' == fs && Rooted(fs, ROOT)
    ensures Rooted(fs', ROOT)
  {
  }

  lemma ServeKeepsInv(
    digest: Bytes -> Bytes, c: Crypto, decrypt: string -> Option<Claims>, s: State, rpcs: seq<Rpc>)
    requires Runs.Inv(digest, s.work)
    ensures Runs.Inv(digest, Serve(digest, c, decrypt, s, rpcs).work)
  {
    var calls := CallsOf(digest, c, decrypt, s, rpcs);
    ServeProjects(digest, c, decrypt, s, rpcs);
    RunProjects(digest, c, s, calls);
    Runs.RunKeepsInv(digest, s.work, RequestsOf(calls));
  }

  // ----- a fresh server behind the interceptor -----

  /**
   A call of this model, SetupAdmin, or a request for any other method.  SetupAdmin creates `user`, or
   None if there are users already.
   */
  datatype Message =
    | Known(rpc: Rpc)
    | SetUp(header: Option<seq<string>>, user: Option<nat>, key: Bytes)
    | Other(header: Option<seq<string>>, name: string)

  const SETUP_ADMIN := "/v1.UserService/SetupAdmin"

  function HeaderOf(m: Message): Option<seq<string>> { if m.Known? then m.rpc.header else m.header }

  /** The first device, and its user as Admin of the root; no claims are asked for. */
  ghost function SetUpStep(digest: Bytes -> Bytes, c: Crypto, s: State, user: Option<nat>, key: Bytes): State {
    if user.None? then s
    else
      State(Runs.Apply(digest, s.work, Runs.Grant(user.value, ROOT, PERM_ADMIN)),
            SessionRuns.Apply(c, s.users, SessionRuns.Register(Some(true), user.value, key)))
  }

  /**
   One message under a list of exempt methods.  Handlers that get claims may do anything at all; without
   claims only SetupAdmin and the calls that need none do something.
   */
  ghost function Take(
    digest: Bytes -> Bytes, c: Crypto, decrypt: string -> Option<Claims>, exempt: seq<string>,
    handle: (State, Claims, Message) -> State, s: State, m: Message): State
  {
    if m.Known? && !NeedsClaims(m.rpc.call) then Apply(digest, c, s, m.rpc.call)
    else if m.SetUp? && SETUP_ADMIN in exempt then SetUpStep(digest, c, s, m.user, m.key)
    else
      var claims := ClaimsOf(decrypt, s, HeaderOf(m));
      if claims.Some? then handle(s, claims.value, m) else s
  }

  ghost function TakeAll(
    digest: Bytes -> Bytes, c: Crypto, decrypt: string -> Option<Claims>, exempt: seq<string>,
    handle: (State, Claims, Message) -> State, s: State, msgs: seq<Message>): State
    decreases |msgs|
  {
    if msgs == [] then s
    else Take(digest, c, decrypt, exempt, handle,
              TakeAll(digest, c, decrypt, exempt, handle, s, Front(msgs)), Last(msgs))
  }

  ghost predicate Empty(s: State) {
    s.users.server.devices == map[] && s.users.server.sessions == map[] && s.users.server.cache == map[]
  }

  lemma OpenCallKeepsEmpty(digest: Bytes -> Bytes, c: Crypto, s: State, call: Call)
    requires Empty(s) && !NeedsClaims(call)
    ensures Empty(Apply(digest, c, s, call))
  {
  }

  lemma {:induction false} TakeAllStaysEmpty(
    digest: Bytes -> Bytes, c: Crypto, decrypt: string -> Option<Claims>, exempt: seq<string>,
    handle: (State, Claims, Message) -> State, s: State, msgs: seq<Message>)
    requires Empty(s) && SETUP_ADMIN !in exempt
    ensures Empty(TakeAll(digest, c, decrypt, exempt, handle, s, msgs))
    decreases |msgs|
  {
    if msgs != [] {
      var before, m := TakeAll(digest, c, decrypt, exempt, handle, s, Front(msgs)), Last(msgs);
      TakeAllStaysEmpty(digest, c, decrypt, exempt, handle, s, Front(msgs));
      if m.Known? && !NeedsClaims(m.rpc.call) {
        OpenCallKeepsEmpty(digest, c, before, m.rpc.call);
      }
    }
  }

  lemma SetUpRegisters(digest: Bytes -> Bytes, c: Crypto, t0: nat, u: nat, key: Bytes)
    ensures SetUpStep(digest, c, Start(t0), Some(u), key).users.server.devices == map[1 := Device(u, key, None)]
  {
  }

  /** A fresh server ever gets a device exactly if SetupAdmin is exempt, whatever the guarded handlers do. */
  lemma FreshServerOpensIff(
    digest: Bytes -> Bytes, c: Crypto, decrypt: string -> Option<Claims>, exempt: seq<string>,
    handle: (State, Claims, Message) -> State, t0: nat)
    ensures (exists msgs :: TakeAll(digest, c, decrypt, exempt, handle, Start(t0), msgs).users.server.devices != map[])
       <==> SETUP_ADMIN in exempt
  {
    if SETUP_ADMIN in exempt {
      var m := SetUp(None, Some(1), []);
      assert Front([m]) == [];
      SetUpRegisters(digest, c, t0, 1, []);
      assert TakeAll(digest, c, decrypt, exempt, handle, Start(t0), [m]).users.server.devices != map[];
    } else {
      forall msgs
        ensures TakeAll(digest, c, decrypt, exempt, handle, Start(t0), msgs).users.server.devices == map[]
      {
        TakeAllStaysEmpty(digest, c, decrypt, exempt, handle, Start(t0), msgs);
      }
    }
  }

  /** It is not exempt, so a fresh server never lets anybody in, and a SetupAdmin request does nothing. */
  lemma FreshServerStaysClosed(
    digest: Bytes -> Bytes, c: Crypto, decrypt: string -> Option<Claims>,
    handle: (State, Claims, Message) -> State, t0: nat, msgs: seq<Message>, header: Option<seq<string>>, key: Bytes)
    ensures var s := TakeAll(digest, c, decrypt, EXEMPT, handle, Start(t0), msgs);
      && s.users.server.devices == map[]
      && ClaimsOf(decrypt, s, header) == None
      && Take(digest, c, decrypt, EXEMPT, handle, s, SetUp(header, Some(1), key)) == s
  {
    assert SETUP_ADMIN !in EXEMPT;
    TakeAllStaysEmpty(digest, c, decrypt, EXEMPT, handle, Start(t0), msgs);
  }

  // ----- a run in which somebody gets in, and is put out -----

  /** Device 1 of user 1, who is Admin, is registered by a direct call and logs in. */
  function Provision(key: Bytes, signature: Bytes): seq<Call> {
    [MakeAdmin(1)] + [Register(1, 1, key)] + [Login(1, 1)] + [Verify(1, 1, signature, None)]
  }

  lemma DeviceProvisioned(digest: Bytes -> Bytes, c: Crypto, t0: nat, key: Bytes)
    ensures var s := Run(digest, c, Start(t0), [MakeAdmin(1)] + [Register(1, 1, key)]);
      && s.users == SessionRuns.After(c, t0, [SessionRuns.Register(Some(true), 1, key)])
      && s.work.db.nextFolder == 2 && Replies.Passes(s.work.db, 1, ROOT, PERM_ADMIN)
      && Runs.Inv(digest, s.work)
  {
    var one := Apply(digest, c, Start(t0), MakeAdmin(1));
    Runs.SeededInv(digest);
    AdminByGrant(digest, c, Start(t0), 1);
    CallStep(digest, c, Start(t0), [], MakeAdmin(1));
    CallStep(digest, c, Start(t0), [MakeAdmin(1)], Register(1, 1, key));
    assert [] + [MakeAdmin(1)] == [MakeAdmin(1)];
    Replies.FolderTest(one.work.db, 1, ROOT, PERM_DEVICE_SETUP);
    SessionRuns.AfterLast(c, t0, [], SessionRuns.Register(Some(true), 1, key));
    assert [] + [SessionRuns.Register(Some(true), 1, key)] == [SessionRuns.Register(Some(true), 1, key)];
  }

  lemma Provisioned(digest: Bytes -> Bytes, c: Crypto, t0: nat, key: Bytes, signature: Bytes)
    requires signature != [] && c.verify(key, c.marshal(1, 1, t0), signature)
    ensures var s := Run(digest, c, Start(t0), Provision(key, signature));
      && Reachable(digest, c, t0, s)
      && s.work.db.nextFolder == 2 && Replies.Passes(s.work.db, 1, ROOT, PERM_ADMIN)
      && Runs.Inv(digest, s.work)
      && s.users.server.devices == map[1 := Device(1, key, None)]
      && PairKey(1, 1) in s.users.server.sessions
  {
    var calls := [MakeAdmin(1)] + [Register(1, 1, key)];
    DeviceProvisioned(digest, c, t0, key);
    CallStep(digest, c, Start(t0), calls, Login(1, 1));
    CallStep(digest, c, Start(t0), calls + [Login(1, 1)], Verify(1, 1, signature, None));
    SessionRuns.AfterLast(c, t0, [SessionRuns.Register(Some(true), 1, key)], SessionRuns.Login(1, 1));
    SessionRuns.FirstChallenge(c, t0, key);
    SessionRuns.ProofLogsIn(c, SessionRuns.After(c, t0, SessionRuns.FirstLogin(key)), 1, 1, signature);
  }

  function NewFolder(token: string): Rpc {
    Rpc(HeaderWith(token), Workspace(Runs.CreateFolder(0, "a", ROOT, true, 0)))
  }

  function RevokeSelf(token: string): Rpc { Rpc(HeaderWith(token), Revoke(0, 1, 1)) }

  /** The request creates folder 2 in the name of user 1, although the request itself says 0. */
  lemma AdmittedRequestActs(
    digest: Bytes -> Bytes, c: Crypto, decrypt: string -> Option<Claims>, t0: nat,
    key: Bytes, signature: Bytes, token: string)
    requires signature != [] && c.verify(key, c.marshal(1, 1, t0), signature)
    requires decrypt(token) == Some(Claims(1, 1))
    ensures var s := Run(digest, c, Start(t0), Provision(key, signature));
      && ClaimsOf(decrypt, s, HeaderWith(token)) == Some(Claims(1, 1))
      && 2 !in s.work.db.folders
      && 2 in Step(digest, c, decrypt, s, NewFolder(token)).work.db.folders
  {
    var s := Run(digest, c, Start(t0), Provision(key, signature));
    Provisioned(digest, c, t0, key, signature);
    SessionOpens(decrypt, s, token);
    AdmittedCreates(digest, c, decrypt, s, token);
    CreatedShape(s.work.db, "a");
  }

  lemma AdmittedCreates(
    digest: Bytes -> Bytes, c: Crypto, decrypt: string -> Option<Claims>, s: State, token: string)
    requires ClaimsOf(decrypt, s, HeaderWith(token)) == Some(Claims(1, 1))
    ensures Step(digest, c, decrypt, s, NewFolder(token)).work.db
         == FolderServices.CreateFolderStep(s.work.db, 1, "a", ROOT, true, 0).0
  {
  }

  lemma CreatedShape(db: Database, name: string)
    requires Runs.FoldersOk(db) && Replies.Passes(db, 1, ROOT, PERM_ADMIN)
    ensures db.nextFolder in FolderServices.CreateFolderStep(db, 1, name, ROOT, true, 0).0.folders
  {
    Replies.FolderTest(db, 1, ROOT, PERM_CREATE_FOLDER);
  }

  /** User 1 revokes the only device there is, and the same request then does nothing, whatever comes between. */
  lemma {:induction false} RevokedUserIsOut(
    digest: Bytes -> Bytes, c: Crypto, decrypt: string -> Option<Claims>, t0: nat,
    key: Bytes, signature: Bytes, token: string, more: seq<Rpc>)
    requires signature != [] && c.verify(key, c.marshal(1, 1, t0), signature)
    requires decrypt(token) == Some(Claims(1, 1))
    requires forall j | 0 <= j < |more| :: !(more[j].call.Register? && more[j].call.user == 1)
    ensures var s := Run(digest, c, Start(t0), Provision(key, signature));
      var s' := Step(digest, c, decrypt, s, RevokeSelf(token));
      && !NoDevice(s, 1) && NoDevice(s', 1)
      && Serve(digest, c, decrypt, s', more + [NewFolder(token)]) == Serve(digest, c, decrypt, s', more)
  {
    var s := Run(digest, c, Start(t0), Provision(key, signature));
    SelfRevoked(digest, c, decrypt, t0, key, signature, token);
    assert TrimBearer(BEARER + token) == token;
    UserWithoutDeviceIsOut(
      digest, c, decrypt, t0, Step(digest, c, decrypt, s, RevokeSelf(token)), more, NewFolder(token), 1);
  }

  lemma SelfRevoked(
    digest: Bytes -> Bytes, c: Crypto, decrypt: string -> Option<Claims>, t0: nat,
    key: Bytes, signature: Bytes, token: string)
    requires signature != [] && c.verify(key, c.marshal(1, 1, t0), signature)
    requires decrypt(token) == Some(Claims(1, 1))
    ensures var s := Run(digest, c, Start(t0), Provision(key, signature));
      var s' := Step(digest, c, decrypt, s, RevokeSelf(token));
      !NoDevice(s, 1) && NoDevice(s', 1) && Reachable(digest, c, t0, s')
  {
    var s := Run(digest, c, Start(t0), Provision(key, signature));
    Provisioned(digest, c, t0, key, signature);
    SessionOpens(decrypt, s, token);
    OnlyDevice(s, key);
    AdmittedRevokes(digest, c, decrypt, t0, s, token, key);
    ServeLast(digest, c, decrypt, s, [], RevokeSelf(token));
    ServedIsReachable(digest, c, decrypt, t0, s, [] + [RevokeSelf(token)]);
  }

  lemma OnlyDevice(s: State, key: Bytes)
    requires s.users.server.devices == map[1 := Device(1, key, None)]
    ensures !NoDevice(s, 1)
  {
    assert DeviceKey(s.users.server.devices, 1, 1).Some?;
  }

  lemma AdmittedRevokes(
    digest: Bytes -> Bytes, c: Crypto, decrypt: string -> Option<Claims>, t0: nat, s: State, token: string, key: Bytes)
    requires Reachable(digest, c, t0, s) && ClaimsOf(decrypt, s, HeaderWith(token)) == Some(Claims(1, 1))
    requires s.users.server.devices == map[1 := Device(1, key, None)] && Replies.Passes(s.work.db, 1, ROOT, PERM_ADMIN)
    ensures NoDevice(Step(digest, c, decrypt, s, RevokeSelf(token)), 1)
  {
    RightsDecideRevoke(digest, c, t0, s, 1, 1, 1);
  }
}
