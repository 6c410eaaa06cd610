/**
 * The authentication service (src/controllers/auth/auth.service.ts): the
 * user and device-session tables as one store, and the sign-in, register,
 * Google sign-in, refresh, logout, password-reset, session-sweep and
 * session-issuing operations that change them.
 */
module AuthService {
  import opened Common
  import opened Oracles
  import opened Entities
  import Lockout
  import Text

  const WrongCredentials := Failure(401, "Username or password is wrong")
  const AlreadyExists := Failure(401, "Such a user already exists")
  const UntrustedDevice := Failure(401, "Login from an untrusted device")
  const BadLink := Failure(400, "Incorrect or outdated link")
  const BlockedReset := Failure(423, "User is blocked. Contact customer support.")
  const LinkExpired := Failure(400, "The waiting time has expired. Your link is no longer valid.")

  /** How long a reset code stays usable: five minutes in milliseconds. */
  const ResetWindowMs: int := 5 * 60 * 1000

  /** What sign-in, registration and Google sign-in return: the scrubbed account and the new tokens. */
  datatype Session = Session(account: User, tokens: TokenPair)

  /** The body of a registration request. */
  datatype Registration = Registration(
    email: string, firstName: Option<string>, lastName: Option<string>, password: string)

  /** The identity the Google OAuth strategy supplies. */
  datatype GoogleIdentity = GoogleIdentity(
    firstName: Option<string>, lastName: Option<string>, image: Option<string>, email: string)

  /**
   * A user as the refresh middleware loads it: only the `id` and `email`
   * columns are selected, so `security` is absent (None) there.
   */
  datatype LoadedUser = LoadedUser(id: UserId, email: string, security: Option<Security>)

  /** `Math.floor(Math.random() * 90000)`: an integer in 0..89999. */
  type Draw = x: int | 0 <= x < 90000

  /**
   * The first name of a registered user: the given one, or, when it is
   * absent or empty, "user" followed by a five-digit number 10000..99999.
   */
  function FirstNameOrDefault(given: Option<string>, draw: Draw): (name: string)
    ensures Present(given) ==> name == given.value
    ensures !Present(given) ==>
      && |name| == 9 && name[..4] == "user" && Text.AllDigits(name[4..])
      && 10000 <= Text.ParseDecimal(name[4..]) <= 99999
  {
    if Present(given) then given.value
    else
      var n := draw + 10000;
      Text.DecimalLength(n, 5);
      Text.ParseDecimalOfDecimal(n);
      assert ("user" + Text.Decimal(n))[4..] == Text.Decimal(n);
      "user" + Text.Decimal(n)
  }

  /** `deviceModel ? deviceModel : null` in `addDeviceAuth`. */
  function DeviceModelColumn(desc: string): Option<string>
  {
    if desc == "" then None else Some(desc)
  }

  /** A descriptor is never empty, so every new session row stores it. */
  lemma DescriptorStored(agent: UserAgent)
    ensures DeviceModelColumn(Descriptor(agent)) == Some(Descriptor(agent))
  {
  }

  /**
   * The sweep's test: a session is expired unless the `exp` claim of its
   * refresh token, in milliseconds, lies strictly after `now`. A missing
   * claim compares as NaN and so counts as expired.
   */
  predicate Expired(jwt: Jwt, d: Device, now: int)
  {
    match jwt.decodeExp(d.refreshToken)
    case None => true
    case Some(exp) => !(exp * 1000 > now)
  }

  /**
   * Expiry is permanent and takes effect at the `exp` second itself: a
   * session expired at `now` stays expired later, and one whose `exp` is
   * `expSec` seconds is already expired at `expSec * 1000` milliseconds.
   */
  lemma ExpiryIsPermanent(jwt: Jwt, d: Device, now: int, later: int, expSec: int)
    ensures Expired(jwt, d, now) && now <= later ==> Expired(jwt, d, later)
    ensures jwt.decodeExp(d.refreshToken) == Some(expSec) ==> Expired(jwt, d, expSec * 1000)
    ensures jwt.decodeExp(d.refreshToken).Some? && now < jwt.decodeExp(d.refreshToken).value * 1000 ==> !Expired(jwt, d, now)
  {
  }

  /** The ids of the listed sessions that the sweep deletes. */
  ghost function SweptIds(list: seq<Device>, jwt: Jwt, now: int): set<DeviceId>
  {
    set d | d in list && Expired(jwt, d, now) :: d.id
  }

  /** The ids of the expired sessions of one user. */
  ghost function ExpiredOf(devices: map<DeviceId, Device>, uid: UserId, jwt: Jwt, now: int): set<DeviceId>
  {
    set k | k in devices && devices[k].owner == uid && Expired(jwt, devices[k], now)
  }

  /** The devices table with every session of one user removed. */
  ghost function WithoutSessionsOf(devices: map<DeviceId, Device>, uid: UserId): map<DeviceId, Device>
  {
    map k | k in devices && devices[k].owner != uid :: devices[k]
  }

  /** The devices table after the tokens of session `id` are overwritten; unchanged if there is no such row. */
  function Rotate(devices: map<DeviceId, Device>, id: DeviceId, t: TokenPair): (r: map<DeviceId, Device>)
    ensures r.Keys == devices.Keys
    ensures forall k :: k in r && k != id ==> r[k] == devices[k]
    ensures id in devices ==> r[id].id == devices[id].id && r[id].owner == devices[id].owner
                              && r[id].deviceModel == devices[id].deviceModel
                              && r[id].accessToken == t.accessToken && r[id].refreshToken == t.refreshToken
  {
    if id in devices
    then devices[id := devices[id].(accessToken := t.accessToken, refreshToken := t.refreshToken)]
    else devices
  }

  /** The row `addDeviceAuth` saves. */
  function NewSession(id: DeviceId, owner: UserId, desc: string, t: TokenPair): Device
  {
    Device(id, owner, DeviceModelColumn(desc), t.accessToken, t.refreshToken)
  }

  /** A user row as registration and first-time Google sign-in create it. */
  function NewUser(id: UserId, email: string, digest: Digest, firstName: Option<string>,
                   lastName: Option<string>, image: Option<string>): User
  {
    User(id, email, Some(digest), firstName, lastName, image, Settings(None),
         ClearedSecurity, ClearedActions, [])
  }

  predicate PasswordMatches(hasher: Hasher, password: string, u: User)
  {
    u.password.Some? && hasher.check(password, u.password.value)
  }

  ghost predicate EmailTaken(users: map<UserId, User>, email: string)
  {
    exists uid :: uid in users && users[uid].email == email
  }

  /** The account registered under `email` (unique while the store is valid). */
  ghost function AccountOf(users: map<UserId, User>, email: string): (uid: UserId)
    requires EmailTaken(users, email)
    ensures uid in users && users[uid].email == email
  {
    var uid :| uid in users && users[uid].email == email; uid
  }

  /** A user holding the reset code `key`. */
  ghost predicate HoldsCode(users: map<UserId, User>, uid: UserId, key: string)
  {
    uid in users && users[uid].actions.code == Some(key)
  }

  /**
   * The checks `restorePassword` makes once it has found the holder of the
   * code: a blocked account fails with 423, a code without an issue time or
   * issued more than five minutes before `now` fails with 400. Exactly five
   * minutes is still accepted.
   */
  function ResetGate(u: User, now: int): (r: Option<Failure>)
    ensures r.None? <==> !u.security.isBlock && u.actions.timeAt.Some? && now <= u.actions.timeAt.value + ResetWindowMs
    ensures u.security.isBlock ==> r == Some(BlockedReset)
    ensures r.Some? && !u.security.isBlock ==> r == Some(LinkExpired)
  {
    if u.security.isBlock then Some(BlockedReset)
    else if u.actions.timeAt.None? || now - u.actions.timeAt.value > ResetWindowMs then Some(LinkExpired)
    else None
  }

  /**
   * The checks `refreshToken` makes before it rotates: the descriptor of
   * the caller's agent must equal the stored one (401), then the account
   * must not be blocked (423). The block flag is read from the stored user.
   */
  function RefreshGate(stored: User, current: Device, agent: UserAgent): (r: Option<Failure>)
    ensures current.deviceModel != Some(Descriptor(agent)) ==> r == Some(UntrustedDevice)
    ensures current.deviceModel == Some(Descriptor(agent)) ==>
      (r.None? <==> !stored.security.isBlock) && (r.Some? ==> r == Some(Lockout.UserBlocked))
  {
    if current.deviceModel != Some(Descriptor(agent)) then Some(UntrustedDevice)
    else if stored.security.isBlock then Some(Lockout.UserBlocked)
    else None
  }

  /**
   * The same checks as written: the block flag is read from the user the
   * refresh middleware delivers, whose `security` column was not loaded.
   */
  function RefreshGateAsWritten(loaded: LoadedUser, current: Device, agent: UserAgent): (r: Option<Failure>)
    ensures current.deviceModel != Some(Descriptor(agent)) ==> r == Some(UntrustedDevice)
    ensures r.Some? ==> r == Some(UntrustedDevice) || r == Some(Lockout.UserBlocked)
    ensures loaded.security.None? ==> (r.None? <==> current.deviceModel == Some(Descriptor(agent)))
  {
    if current.deviceModel != Some(Descriptor(agent)) then Some(UntrustedDevice)
    else if loaded.security.Some? && loaded.security.value.isBlock then Some(Lockout.UserBlocked)
    else None
  }

  /**
   * As written, a blocked account whose session the middleware resolved
   * passes the refresh checks: the flag it tests is never loaded.
   */
  lemma BlockedAccountRefreshesAsWritten(stored: User, current: Device, agent: UserAgent)
    requires stored.security.isBlock && current.deviceModel == Some(Descriptor(agent))
    ensures RefreshGateAsWritten(LoadedUser(stored.id, stored.email, None), current, agent) == None
    ensures RefreshGate(stored, current, agent) == Some(Lockout.UserBlocked)
  {
  }

  class Store {
    var users: map<UserId, User>
    var devices: map<DeviceId, Device>
    var nextUserId: nat
    var nextDeviceId: nat

    /**
     * Rows are keyed by their ids, ids below the counters are taken, every
     * stored user has a password digest, every session belongs to a stored
     * user, and no two users share an email.
     */
    ghost predicate Valid()
      reads this
    {
      && (forall uid :: uid in users ==>
            users[uid].id == uid && uid < nextUserId && users[uid].password.Some?)
      && (forall k :: k in devices ==>
            devices[k].id == k && k < nextDeviceId && devices[k].owner in users)
      && (forall a, b :: a in users && b in users && users[a].email == users[b].email ==> a == b)
    }

    constructor ()
      ensures Valid() && users == map[] && devices == map[]
    {
      users, devices := map[], map[];
      nextUserId, nextDeviceId := 0, 0;
    }

    /** `findOne({ where: { email } })`. */
    method FindByEmail(email: string) returns (found: Option<UserId>)
      requires Valid()
      ensures found.None? <==> !EmailTaken(users, email)
      ensures found.Some? ==> found.value == AccountOf(users, email)
    {
      if exists uid :: uid in users && users[uid].email == email {
        var uid :| uid in users && users[uid].email == email;
        found := Some(uid);
      } else {
        found := None;
      }
    }

    /** The `devices` relation of a user, loaded with it: each of its sessions once, in no set order. */
    method LoadDevices(uid: UserId) returns (list: seq<Device>)
      requires Valid()
      ensures forall d :: d in list <==> d.id in devices && devices[d.id] == d && d.owner == uid
      ensures forall i, j :: 0 <= i < j < |list| ==> list[i].id != list[j].id
    {
      list := [];
      var todo := devices.Keys;
      while todo != {}
        invariant todo <= devices.Keys
        invariant forall d :: d in list <==> d.id in devices && d.id !in todo && devices[d.id] == d && d.owner == uid
        invariant forall i, j :: 0 <= i < j < |list| ==> list[i].id != list[j].id
        decreases todo
      {
        var k :| k in todo;
        if devices[k].owner == uid {
          list := list + [devices[k]];
        }
        todo := todo - {k};
      }
    }

    /**
     * `deleteOldSession`: deletes exactly the listed sessions whose refresh
     * token has expired by `now`, and no other row.
     */
    method DeleteOldSession(list: seq<Device>, jwt: Jwt, now: int)
      requires Valid()
      modifies this
      ensures Valid()
      ensures devices == old(devices) - SweptIds(list, jwt, now)
      ensures users == old(users) && nextUserId == old(nextUserId) && nextDeviceId == old(nextDeviceId)
    {
      var i := 0;
      while i < |list|
        invariant 0 <= i <= |list|
        invariant Valid()
        invariant users == old(users) && nextUserId == old(nextUserId) && nextDeviceId == old(nextDeviceId)
        invariant devices == old(devices) - SweptIds(list[..i], jwt, now)
      {
        var d := list[i];
        assert list[..i + 1] == list[..i] + [d];
        if Expired(jwt, d, now) {
          devices := devices - {d.id};
        }
        i := i + 1;
      }
      assert list[..|list|] == list;
    }

    /** `addDeviceAuth`: mints a token pair for `u` and saves one new session row holding it. */
    method AddDeviceAuth(desc: string, u: User, jwt: Jwt, now: int) returns (tokens: TokenPair)
      requires Valid() && u.id in users
      modifies this
      ensures Valid()
      ensures tokens == CreateToken(jwt, u.email, u.id, now)
      ensures old(nextDeviceId) !in old(devices)
      ensures devices == old(devices)[old(nextDeviceId) := NewSession(old(nextDeviceId), u.id, desc, tokens)]
      ensures users == old(users) && nextUserId == old(nextUserId) && nextDeviceId == old(nextDeviceId) + 1
    {
      tokens := CreateToken(jwt, u.email, u.id, now);
      var id := nextDeviceId;
      devices := devices[id := NewSession(id, u.id, desc, tokens)];
      nextDeviceId := nextDeviceId + 1;
    }

    /** Sweeps the expired sessions of `uid`, then issues a new one. */
    method SweepAndIssue(desc: string, u: User, jwt: Jwt, now: int) returns (tokens: TokenPair)
      requires Valid() && u.id in users
      modifies this
      ensures Valid()
      ensures tokens == CreateToken(jwt, u.email, u.id, now)
      ensures old(nextDeviceId) !in old(devices)
      ensures devices == (old(devices) - ExpiredOf(old(devices), u.id, jwt, now))[old(nextDeviceId) := NewSession(old(nextDeviceId), u.id, desc, tokens)]
      ensures users == old(users) && nextUserId == old(nextUserId) && nextDeviceId == old(nextDeviceId) + 1
    {
      var list := LoadDevices(u.id);
      assert SweptIds(list, jwt, now) == ExpiredOf(devices, u.id, jwt, now) by {
        forall k | k in ExpiredOf(devices, u.id, jwt, now) ensures k in SweptIds(list, jwt, now) {
          assert devices[k] in list;
        }
      }
      DeleteOldSession(list, jwt, now);
      tokens := AddDeviceAuth(desc, u, jwt, now);
    }

    /**
     * `signInCredentials`. An unknown email fails like a wrong password. A
     * blocked account or an open cool-down window fails before the
     * password is checked, changing nothing. A wrong password records the
     * failure in the account's `security` record only. A correct password
     * clears the record, sweeps the account's expired sessions and adds
     * exactly one session for this device.
     */
    method SignIn(email: string, password: string, agent: UserAgent, now: int, hasher: Hasher, jwt: Jwt)
      returns (r: Result<Session>)
      requires Valid()
      modifies this
      ensures Valid() && nextUserId == old(nextUserId)
      ensures !EmailTaken(old(users), email) ==>
        r == Err(WrongCredentials) && users == old(users) && devices == old(devices) && nextDeviceId == old(nextDeviceId)
      ensures EmailTaken(old(users), email) ==>
        var uid := AccountOf(old(users), email);
        var u := old(users)[uid];
        var desc := Descriptor(agent);
        if Lockout.Gate(u.security, now).Some? then
          && r == Err(Lockout.Gate(u.security, now).value)
          && users == old(users) && devices == old(devices) && nextDeviceId == old(nextDeviceId)
        else if !PasswordMatches(hasher, password, u) then
          && r == Err(WrongCredentials)
          && users == old(users)[uid := u.(security := Lockout.Failed(u.security, desc, now))]
          && devices == old(devices) && nextDeviceId == old(nextDeviceId)
        else
          var tokens := CreateToken(jwt, u.email, uid, now);
          && r == Ok(Session(u.(password := None), tokens))
          && users == old(users)[uid := u.(security := ClearedSecurity)]
          && old(nextDeviceId) !in old(devices)
          && devices == (old(devices) - ExpiredOf(old(devices), uid, jwt, now))[old(nextDeviceId) := NewSession(old(nextDeviceId), uid, desc, tokens)]
          && nextDeviceId == old(nextDeviceId) + 1
    {
      var found := FindByEmail(email);
      if found.None? {
        return Err(WrongCredentials);
      }
      var uid := found.value;
      var u := users[uid];
      var desc := Descriptor(agent);
      if u.security.isBlock {
        return Err(Lockout.UserBlocked);
      }
      if u.security.loginTime.Some? && now - u.security.loginTime.value < Lockout.CooldownMs {
        return Err(Lockout.CooldownFailure(Lockout.RemainingMinutes(u.security.loginTime.value, now)));
      }
      if !PasswordMatches(hasher, password, u) {
        var sec := u.security;
        var attempts := sec.loginAttempts;
        if attempts == Some(5) || attempts == Some(10) {
          sec := sec.(loginTime := Some(now));
        }
        if attempts.Some? && attempts.value > 14 {
          sec := sec.(isBlock := true);
        }
        sec := sec.(loginAttempts := Some(if Lockout.CounterSet(attempts) then attempts.value + 1 else 1));
        sec := sec.(deviceTry := Some(desc));
        users := users[uid := u.(security := sec)];
        return Err(WrongCredentials);
      }
      users := users[uid := u.(security := ClearedSecurity)];
      var tokens := SweepAndIssue(desc, u, jwt, now);
      r := Ok(Session(u.(password := None), tokens));
    }

    /**
     * `signUpCredentials`. A taken email fails with 401 and changes
     * nothing. Otherwise exactly one user is created, with a cleared
     * security and action record and the hashed password, and exactly one
     * session is added for it.
     */
    method SignUp(body: Registration, agent: UserAgent, now: int, hasher: Hasher, salt: nat, draw: Draw, jwt: Jwt)
      returns (r: Result<Session>)
      requires Valid()
      modifies this
      ensures Valid()
      ensures EmailTaken(old(users), body.email) ==>
        && r == Err(AlreadyExists)
        && users == old(users) && devices == old(devices)
        && nextUserId == old(nextUserId) && nextDeviceId == old(nextDeviceId)
      ensures !EmailTaken(old(users), body.email) ==>
        var uid := old(nextUserId);
        var u := NewUser(uid, body.email, hasher.hash(body.password, salt),
                         Some(FirstNameOrDefault(body.firstName, draw)), body.lastName, None);
        var tokens := CreateToken(jwt, body.email, uid, now);
        && uid !in old(users) && old(nextDeviceId) !in old(devices)
        && users == old(users)[uid := u]
        && devices == old(devices)[old(nextDeviceId) := NewSession(old(nextDeviceId), uid, Descriptor(agent), tokens)]
        && r == Ok(Session(u.(password := None), tokens))
        && nextUserId == old(nextUserId) + 1 && nextDeviceId == old(nextDeviceId) + 1
    {
      var found := FindByEmail(body.email);
      if found.Some? {
        return Err(AlreadyExists);
      }
      var desc := Descriptor(agent);
      var digest := hasher.hash(body.password, salt);
      var name := FirstNameOrDefault(body.firstName, draw);
      var u := NewUser(nextUserId, body.email, digest, Some(name), body.lastName, None);
      users := users[u.id := u];
      nextUserId := nextUserId + 1;
      var tokens := AddDeviceAuth(desc, u, jwt, now);
      r := Ok(Session(u.(password := None), tokens));
    }

    /**
     * `authGoogle`. A known, blocked account fails with 423. A known
     * account otherwise gets the sweep and one new session; its `security`
     * record is neither checked for a cool-down nor written. An unknown
     * email creates one user, whose password is the hash of a random uuid,
     * and one session.
     */
    method AuthGoogle(identity: GoogleIdentity, agent: UserAgent, now: int, hasher: Hasher,
                      uuid: string, salt: nat, jwt: Jwt)
      returns (r: Result<Session>)
      requires Valid()
      modifies this
      ensures Valid()
      ensures EmailTaken(old(users), identity.email) ==>
        var uid := AccountOf(old(users), identity.email);
        var u := old(users)[uid];
        && users == old(users) && nextUserId == old(nextUserId)
        && if u.security.isBlock then
             r == Err(Lockout.UserBlocked) && devices == old(devices) && nextDeviceId == old(nextDeviceId)
           else
             var tokens := CreateToken(jwt, u.email, uid, now);
             && r == Ok(Session(u.(password := None), tokens))
             && old(nextDeviceId) !in old(devices)
             && devices == (old(devices) - ExpiredOf(old(devices), uid, jwt, now))[old(nextDeviceId) := NewSession(old(nextDeviceId), uid, Descriptor(agent), tokens)]
             && nextDeviceId == old(nextDeviceId) + 1
      ensures !EmailTaken(old(users), identity.email) ==>
        var uid := old(nextUserId);
        var u := NewUser(uid, identity.email, hasher.hash(uuid, salt),
                         identity.firstName, identity.lastName, identity.image);
        var tokens := CreateToken(jwt, identity.email, uid, now);
        && uid !in old(users) && old(nextDeviceId) !in old(devices)
        && users == old(users)[uid := u]
        && devices == old(devices)[old(nextDeviceId) := NewSession(old(nextDeviceId), uid, Descriptor(agent), tokens)]
        && r == Ok(Session(u.(password := None), tokens))
        && nextUserId == old(nextUserId) + 1 && nextDeviceId == old(nextDeviceId) + 1
    {
      var found := FindByEmail(identity.email);
      var desc := Descriptor(agent);
      if found.Some? {
        var u := users[found.value];
        if u.security.isBlock {
          return Err(Lockout.UserBlocked);
        }
        var tokens := SweepAndIssue(desc, u, jwt, now);
        return Ok(Session(u.(password := None), tokens));
      }
      var digest := hasher.hash(uuid, salt);
      var u := NewUser(nextUserId, identity.email, digest, identity.firstName, identity.lastName, identity.image);
      users := users[u.id := u];
      nextUserId := nextUserId + 1;
      var tokens := AddDeviceAuth(desc, u, jwt, now);
      r := Ok(Session(u.(password := None), tokens));
    }

    /**
     * `refreshToken`, given the user and the session the refresh
     * middleware resolved. An agent whose descriptor differs from the
     * session's fails with 401 before the block check (423). On success a
     * fresh pair is minted and written over the same row: no row is added
     * or removed and no other row changes.
     */
    method Refresh(who: LoadedUser, current: Device, agent: UserAgent, now: int, jwt: Jwt)
      returns (r: Result<TokenPair>)
      requires Valid() && who.id in users
      modifies this
      ensures Valid()
      ensures users == old(users) && nextUserId == old(nextUserId) && nextDeviceId == old(nextDeviceId)
      ensures RefreshGate(old(users)[who.id], current, agent).Some? ==>
        r == Err(RefreshGate(old(users)[who.id], current, agent).value) && devices == old(devices)
      ensures RefreshGate(old(users)[who.id], current, agent).None? ==>
        && r == Ok(CreateToken(jwt, who.email, who.id, now))
        && devices == Rotate(old(devices), current.id, r.value)
    {
      var gate := RefreshGate(users[who.id], current, agent);
      if gate.Some? {
        return Err(gate.value);
      }
      var tokens := CreateToken(jwt, who.email, who.id, now);
      if current.id in devices {
        devices := devices[current.id := devices[current.id].(accessToken := tokens.accessToken, refreshToken := tokens.refreshToken)];
      }
      r := Ok(tokens);
    }

    /** `logout`: deletes the resolved session and nothing else. */
    method Logout(current: Device)
      requires Valid()
      modifies this
      ensures Valid()
      ensures devices == old(devices) - {current.id}
      ensures users == old(users) && nextUserId == old(nextUserId) && nextDeviceId == old(nextDeviceId)
    {
      devices := devices - {current.id};
    }

    /**
     * `restorePassword`. With no holder of the code it fails with 400 and
     * changes nothing; a holder that fails `ResetGate` fails with that
     * failure and changes nothing. Otherwise, in one step, the holder's
     * password becomes the hash of the new one, its action record is
     * cleared and every one of its sessions is deleted.
     */
    method RestorePassword(key: string, password: string, now: int, hasher: Hasher, salt: nat)
      returns (r: Outcome)
      requires Valid()
      modifies this
      ensures Valid()
      ensures nextUserId == old(nextUserId) && nextDeviceId == old(nextDeviceId)
      ensures r == Fail(BadLink) <==> !exists uid :: HoldsCode(old(users), uid, key)
      ensures r.Fail? ==> users == old(users) && devices == old(devices)
      ensures r.Fail? && r.error != BadLink ==>
        exists uid :: HoldsCode(old(users), uid, key) && ResetGate(old(users)[uid], now) == Some(r.error)
      ensures r.Pass? ==>
        exists uid :: HoldsCode(old(users), uid, key) && ResetGate(old(users)[uid], now).None?
          && users == old(users)[uid := old(users)[uid].(password := Some(hasher.hash(password, salt)), actions := ClearedActions)]
          && devices == WithoutSessionsOf(old(devices), uid)
    {
      if exists uid :: uid in users && users[uid].actions.code == Some(key) {
        var uid :| uid in users && users[uid].actions.code == Some(key);
        var u := users[uid];
        assert HoldsCode(old(users), uid, key);
        var gate := ResetGate(u, now);
        if gate.Some? {
          assert gate.value.status == 423 || gate.value.message != BadLink.message;
          return Fail(gate.value);
        }
        var owned := LoadDevices(uid);
        var digest := hasher.hash(password, salt);
        users := users[uid := u.(password := Some(digest), actions := ClearedActions)];
        var doomed := set d | d in owned :: d.id;
        devices := devices - doomed;
        assert devices == WithoutSessionsOf(old(devices), uid) by {
          forall k | k in old(devices) && old(devices)[k].owner == uid ensures k in doomed {
            assert old(devices)[k] in owned;
          }
        }
        r := Pass;
      } else {
        r := Fail(BadLink);
      }
    }
  }
}
