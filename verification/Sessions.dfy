/** Devices, login challenges with their expiry timers, sessions, and the authentication of requests. */
module Sessions {
  import opened Wrappers
  import opened Paths
  import opened Tables
  import opened Permissions
  import opened FolderServices

  datatype Device = Device(user: nat, key: Bytes, revokedAt: Option<nat>)

  /** A cached challenge; the serial stands for the address that CompareAndDelete compares. */
  datatype Entry = Entry(serial: nat, bytes: Bytes)

  /** A pending callback of time.AfterFunc for the entry it was created with. */
  datatype Timer = Timer(key: string, deadline: nat)

  datatype Server = Server(
    devices: map<nat, Device>, nextDevice: nat,
    cache: map<string, Entry>, timers: map<nat, Timer>, nextEntry: nat,
    sessions: map<string, bool>)

  /** The message a challenge is signed over, and the signature check under a public key. */
  datatype Crypto = Crypto(marshal: (nat, nat, nat) -> Bytes, verify: (Bytes, Bytes, Bytes) -> bool)

  datatype Claims = Claims(user: nat, device: nat)

  /** Three minutes, in seconds. */
  const LIFETIME: nat := 180

  /** The key of a device that belongs to the user and is not revoked. */
  function DeviceKey(devices: map<nat, Device>, u: nat, d: nat): Option<Bytes> {
    if d in devices && devices[d].user == u && devices[d].revokedAt == None then Some(devices[d].key) else None
  }

  function LoginStep(c: Crypto, s: Server, now: nat, u: nat, d: nat): (Server, Reply<nat>) {
    if u == 0 || d == 0 then (s, InvalidArgument)
    else if DeviceKey(s.devices, u, d).None? then (s, NotFound)
    else
      var entry := Entry(s.nextEntry, c.marshal(u, d, now));
      (s.(cache := s.cache[PairKey(u, d) := entry],
          timers := s.timers[entry.serial := Timer(PairKey(u, d), now + LIFETIME)],
          nextEntry := s.nextEntry + 1),
       Ok(now))
  }

  /** The signature matches the cached challenge under the device's current key. */
  predicate Proves(c: Crypto, s: Server, u: nat, d: nat, signature: Bytes) {
    && u != 0 && d != 0 && signature != []
    && PairKey(u, d) in s.cache
    && DeviceKey(s.devices, u, d).Some?
    && c.verify(DeviceKey(s.devices, u, d).value, s.cache[PairKey(u, d)].bytes, signature)
  }

  /** `token` is what the token library returns; the session is added before it is asked. */
  function VerifyStep(
    c: Crypto, s: Server, u: nat, d: nat, signature: Bytes, token: Option<string>): (Server, Reply<string>)
  {
    if u == 0 || d == 0 || signature == [] then (s, InvalidArgument)
    else if PairKey(u, d) !in s.cache then (s, Unauthenticated)
    else
      var used := s.(cache := s.cache - {PairKey(u, d)});
      if DeviceKey(s.devices, u, d).None? then (used, NotFound)
      else if !Proves(c, s, u, d, signature) then (used, Unauthenticated)
      else (used.(sessions := s.sessions[PairKey(u, d) := true]), if token.Some? then Ok(token.value) else Internal)
  }

  /** A timer runs once, and deletes its key only if the key still holds its own entry. */
  function FireStep(s: Server, e: nat): Server {
    if e !in s.timers then s
    else
      var k := s.timers[e].key;
      s.(timers := s.timers - {e},
         cache := if k in s.cache && s.cache[k].serial == e then s.cache - {k} else s.cache)
  }

  function RegisterStep(s: Server, rights: Option<bool>, u: nat, key: Bytes): (Server, Reply<nat>) {
    match rights
    case None => (s, Internal)
    case Some(false) => (s, PermissionDenied)
    case Some(true) =>
      (s.(devices := s.devices[s.nextDevice := Device(u, key, None)], nextDevice := s.nextDevice + 1),
       Ok(s.nextDevice))
  }

  function Revoked(devices: map<nat, Device>, now: nat, u: nat, d: nat): map<nat, Device> {
    if DeviceKey(devices, u, d).Some? then devices[d := devices[d].(revokedAt := Some(now))] else devices
  }

  function RevokeStep(s: Server, rights: Option<bool>, now: nat, u: nat, d: nat): (Server, Reply<()>) {
    match rights
    case None => (s, Internal)
    case Some(false) => (s, PermissionDenied)
    case Some(true) =>
      (s.(devices := Revoked(s.devices, now, u, d), sessions := s.sessions - {PairKey(u, d)}), Ok(()))
  }

  /** The methods that need no authentication. */
  const EXEMPT: seq<string> := ["/v1.UserService/LoginUser", "/v1.UserService/VerifyLoginSignature"]

  const BEARER := "Bearer "

  function TrimBearer(header: string): string {
    if BEARER <= header then header[|BEARER|..] else header
  }

  /** None is a request without metadata, an empty list one without the header. */
  function AuthenticateStep(
    decrypt: string -> Option<Claims>, sessions: map<string, bool>, header: Option<seq<string>>): Reply<Claims>
  {
    if header.None? || header.value == [] then Unauthenticated
    else match decrypt(TrimBearer(header.value[0]))
      case None => Unauthenticated
      case Some(claims) =>
        if PairKey(claims.user, claims.device) in sessions then Ok(claims) else Unauthenticated
  }

  // ----- the objects -----

  /** The device rows of the SQLite manager. */
  class DeviceTable {
    var devices: map<nat, Device>
    var nextDevice: nat

    constructor ()
      ensures devices == map[] && nextDevice == 1
    {
      devices, nextDevice := map[], 1;
    }

    method GetDevicePublicKey(u: nat, d: nat) returns (r: Option<Bytes>)
      ensures r == DeviceKey(devices, u, d)
    {
      r := None;
      if d in devices && devices[d].user == u && devices[d].revokedAt == None {
        r := Some(devices[d].key);
      }
    }

    method RegisterDevice(u: nat, key: Bytes) returns (d: nat)
      modifies this
      ensures d == old(nextDevice) && nextDevice == d + 1
      ensures devices == old(devices)[d := Device(u, key, None)]
    {
      d := nextDevice;
      devices := devices[d := Device(u, key, None)];
      nextDevice := d + 1;
    }

    method RevokeDevice(u: nat, d: nat, now: nat)
      modifies this`devices
      ensures devices == Revoked(old(devices), now, u, d)
    {
      if d in devices && devices[d].user == u && devices[d].revokedAt == None {
        devices := devices[d := devices[d].(revokedAt := Some(now))];
      }
    }
  }

  /** A set of user and device pairs behind rendered string keys. */
  class SessionManager {
    var sessions: map<string, bool>
    ghost var pairs: set<(nat, nat)>

    ghost predicate Valid()
      reads this
    {
      sessions.Keys == set p | p in pairs :: PairKey(p.0, p.1)
    }

    constructor ()
      ensures Valid() && sessions == map[] && pairs == {}
    {
      sessions, pairs := map[], {};
    }

    method AddSession(u: nat, d: nat)
      requires Valid()
      modifies this
      ensures Valid() && pairs == old(pairs) + {(u, d)}
      ensures sessions == old(sessions)[PairKey(u, d) := true]
    {
      sessions := sessions[PairKey(u, d) := true];
      pairs := pairs + {(u, d)};
    }

    method RemoveSession(u: nat, d: nat)
      requires Valid()
      modifies this
      ensures Valid() && pairs == old(pairs) - {(u, d)}
      ensures sessions == old(sessions) - {PairKey(u, d)}
    {
      PairKeysDiffer(pairs, u, d);
      sessions := sessions - {PairKey(u, d)};
      pairs := pairs - {(u, d)};
    }

    method IsSessionActive(u: nat, d: nat) returns (active: bool)
      requires Valid()
      ensures active <==> (u, d) in pairs
      ensures active <==> PairKey(u, d) in sessions
    {
      PairKeysDiffer(pairs, u, d);
      active := PairKey(u, d) in sessions;
    }
  }

  lemma PairKeysDiffer(pairs: set<(nat, nat)>, u: nat, d: nat)
    ensures forall p | p in pairs && PairKey(p.0, p.1) == PairKey(u, d) :: p == (u, d)
  {
    forall p | p in pairs && PairKey(p.0, p.1) == PairKey(u, d)
      ensures p == (u, d)
    {
      PairKeyInjective(p.0, p.1, u, d);
    }
  }

  class UserService {
    const table: DeviceTable
    const permissions: PermissionManager
    const sessionManager: SessionManager
    const crypto: Crypto
    var challengeCache: map<string, Entry>
    var timers: map<nat, Timer>
    var nextEntry: nat

    constructor (table: DeviceTable, permissions: PermissionManager, sessionManager: SessionManager, crypto: Crypto)
      requires sessionManager.Valid()
      ensures this.table == table && this.sessionManager == sessionManager && this.crypto == crypto
      ensures this.permissions == permissions
      ensures State() == Server(table.devices, table.nextDevice, map[], map[], 0, sessionManager.sessions)
    {
      this.table, this.permissions, this.sessionManager, this.crypto := table, permissions, sessionManager, crypto;
      challengeCache, timers, nextEntry := map[], map[], 0;
    }

    ghost function State(): Server
      reads this, table, sessionManager
    {
      Server(table.devices, table.nextDevice, challengeCache, timers, nextEntry, sessionManager.sessions)
    }

    method LoginUser(u: nat, d: nat, now: nat) returns (r: Reply<nat>)
      modifies this
      ensures (State(), r) == LoginStep(crypto, old(State()), now, u, d)
    {
      if u == 0 || d == 0 {
        return InvalidArgument;
      }
      var key := table.GetDevicePublicKey(u, d);
      if key.None? {
        return NotFound;
      }
      var cacheKey, entry := PairKey(u, d), Entry(nextEntry, crypto.marshal(u, d, now));
      nextEntry := nextEntry + 1;
      challengeCache := challengeCache[cacheKey := entry];
      timers := timers[entry.serial := Timer(cacheKey, now + LIFETIME)];
      r := Ok(now);
    }

    /** The callback: CompareAndDelete. */
    method Expire(e: nat)
      modifies this
      ensures State() == FireStep(old(State()), e)
    {
      if e in timers {
        var key := timers[e].key;
        timers := timers - {e};
        if key in challengeCache && challengeCache[key].serial == e {
          challengeCache := challengeCache - {key};
        }
      }
    }

    method VerifyLoginSignature(u: nat, d: nat, signature: Bytes, token: Option<string>) returns (r: Reply<string>)
      requires sessionManager.Valid()
      modifies this, sessionManager
      ensures sessionManager.Valid()
      ensures (State(), r) == VerifyStep(crypto, old(State()), u, d, signature, token)
    {
      if u == 0 || d == 0 {
        return InvalidArgument;
      }
      if |signature| == 0 {
        return InvalidArgument;
      }
      var cacheKey := PairKey(u, d);
      if cacheKey !in challengeCache {
        return Unauthenticated;
      }
      var bytes := challengeCache[cacheKey].bytes;
      challengeCache := challengeCache - {cacheKey};
      var key := table.GetDevicePublicKey(u, d);
      if key.None? {
        return NotFound;
      }
      if !crypto.verify(key.value, bytes, signature) {
        return Unauthenticated;
      }
      sessionManager.AddSession(u, d);
      if token.None? {
        return Internal;
      }
      r := Ok(token.value);
    }

    method RegisterDevice(caller: nat, u: nat, key: Bytes) returns (r: Reply<nat>)
      modifies table
      ensures (State(), r)
           == RegisterStep(old(State()), old(Allowed(permissions.store.Db(), caller, 1, PERM_DEVICE_SETUP)), u, key)
    {
      var allowed := permissions.HasPermission(caller, 1, PERM_DEVICE_SETUP);
      if allowed.None? {
        return Internal;
      }
      if !allowed.value {
        return PermissionDenied;
      }
      var d := table.RegisterDevice(u, key);
      r := Ok(d);
    }

    method RevokeDevice(caller: nat, u: nat, d: nat, now: nat) returns (r: Reply<()>)
      requires sessionManager.Valid()
      modifies table, sessionManager
      ensures sessionManager.Valid()
      ensures (State(), r)
           == RevokeStep(old(State()), old(Allowed(permissions.store.Db(), caller, 1, PERM_ADMIN)), now, u, d)
    {
      var allowed := permissions.HasPermission(caller, 1, PERM_ADMIN);
      if allowed.None? {
        return Internal;
      }
      if !allowed.value {
        return PermissionDenied;
      }
      table.RevokeDevice(u, d, now);
      sessionManager.RemoveSession(u, d);
      r := Ok(());
    }
  }

  class AuthInterceptor {
    const decrypt: string -> Option<Claims>
    const sessionManager: SessionManager
    var unauthenticatedMethods: seq<string>

    constructor (decrypt: string -> Option<Claims>, sessionManager: SessionManager)
      ensures this.decrypt == decrypt && this.sessionManager == sessionManager
      ensures unauthenticatedMethods == EXEMPT
    {
      this.decrypt, this.sessionManager := decrypt, sessionManager;
      unauthenticatedMethods := EXEMPT;
    }

    method IsUnauthenticatedMethod(name: string) returns (b: bool)
      ensures b <==> name in unauthenticatedMethods
    {
      for i := 0 to |unauthenticatedMethods|
        invariant name !in unauthenticatedMethods[..i]
      {
        if unauthenticatedMethods[i] == name {
          return true;
        }
      }
      b := false;
    }

    method SetUnauthenticatedMethods(methods: seq<string>)
      modifies this
      ensures unauthenticatedMethods == methods
    {
      unauthenticatedMethods := methods;
    }

    method Authenticate(header: Option<seq<string>>) returns (r: Reply<Claims>)
      requires sessionManager.Valid()
      ensures r == AuthenticateStep(decrypt, sessionManager.sessions, header)
      ensures r.Ok? ==> (r.value.user, r.value.device) in sessionManager.pairs
    {
      if header.None? || |header.value| == 0 {
        return Unauthenticated;
      }
      var token := TrimBearer(header.value[0]);
      if token == header.value[0] {
        token := header.value[0];
      }
      var claims := decrypt(token);
      if claims.None? {
        return Unauthenticated;
      }
      var active := sessionManager.IsSessionActive(claims.value.user, claims.value.device);
      if !active {
        return Unauthenticated;
      }
      r := Ok(claims.value);
    }

    /** Whether the handler runs, and with which claims in its context. */
    method Intercept(name: string, header: Option<seq<string>>) returns (runs: bool, claims: Option<Claims>)
      requires sessionManager.Valid()
      ensures runs <==> name in unauthenticatedMethods
                        || AuthenticateStep(decrypt, sessionManager.sessions, header).Ok?
      ensures claims.Some? <==> runs && name !in unauthenticatedMethods
      ensures claims.Some? ==> AuthenticateStep(decrypt, sessionManager.sessions, header) == Ok(claims.value)
    {
      var open := IsUnauthenticatedMethod(name);
      if open {
        return true, None;
      }
      var reply := Authenticate(header);
      if reply.Ok? {
        return true, Some(reply.value);
      }
      return false, None;
    }
  }
}
