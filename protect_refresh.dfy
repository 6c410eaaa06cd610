/**
 * The refresh-cookie middleware (src/middlewares/protect-refresh.middleware.ts):
 * from the `refreshToken` cookie to the user and the session row that
 * stores that very token.
 */
module ProtectRefresh {
  import opened Common
  import opened Oracles
  import opened Entities
  import opened AuthService

  /** What the middleware attaches to the request: `req.user` and `req.currentDevice`. */
  datatype Resolved = Resolved(user: LoadedUser, device: Device)

  /** `devices.find(i => i.refreshToken === token)`: the first session storing `token`. */
  function FindByRefreshToken(list: seq<Device>, token: Token): (r: Option<Device>)
    ensures r.None? <==> forall d :: d in list ==> d.refreshToken != token
    ensures r.Some? ==> exists i :: 0 <= i < |list| && list[i] == r.value && r.value.refreshToken == token
                          && forall j :: 0 <= j < i ==> list[j].refreshToken != token
  {
    if list == [] then None
    else if list[0].refreshToken == token then Some(list[0])
    else
      var r := FindByRefreshToken(list[1..], token);
      assert forall d :: d in list[1..] ==> d in list;
      if r.Some? then
        var i :| 0 <= i < |list[1..]| && list[1..][i] == r.value && r.value.refreshToken == token
                  && forall j :: 0 <= j < i ==> list[1..][j].refreshToken != token;
        assert list[i + 1] == r.value;
        r
      else r
  }

  /**
   * The middleware lets a request through exactly when the cookie is a
   * non-empty token that verifies at `now`, a user with the verified id
   * exists, and one of that user's sessions stores the cookie's token.
   */
  ghost predicate RefreshAccepted(users: map<UserId, User>, devices: map<DeviceId, Device>,
                                  cookie: Option<string>, jwt: Jwt, now: int)
  {
    && Present(cookie)
    && jwt.verify(cookie.value, now).Some?
    && jwt.verify(cookie.value, now).value in users
    && exists k :: k in devices && devices[k].owner == jwt.verify(cookie.value, now).value
                   && devices[k].refreshToken == cookie.value
  }

  /**
   * `ProtectRefreshMiddleware.use`. Every failure is 401 "Not authorized".
   * On success the user carries only the selected id and email, and the
   * session is a row of that user storing the cookie's token.
   */
  method Resolve(store: Store, cookie: Option<string>, jwt: Jwt, now: int) returns (r: Result<Resolved>)
    requires store.Valid()
    ensures r.Ok? <==> RefreshAccepted(store.users, store.devices, cookie, jwt, now)
    ensures r.Err? ==> r.error == NotAuthorized
    ensures r.Ok? ==>
      var uid := jwt.verify(cookie.value, now).value;
      && r.value.user == LoadedUser(uid, store.users[uid].email, None)
      && r.value.device.id in store.devices && store.devices[r.value.device.id] == r.value.device
      && r.value.device.owner == uid && r.value.device.refreshToken == cookie.value
  {
    if !Present(cookie) {
      return Err(NotAuthorized);
    }
    var token := cookie.value;
    var verified := jwt.verify(token, now);
    if verified.None? {
      return Err(NotAuthorized);
    }
    var uid := verified.value;
    if uid !in store.users {
      return Err(NotAuthorized);
    }
    var owned := store.LoadDevices(uid);
    var found := FindByRefreshToken(owned, token);
    if found.None? {
      assert forall k :: k in store.devices && store.devices[k].owner == uid ==> store.devices[k] in owned;
      return Err(NotAuthorized);
    }
    r := Ok(Resolved(LoadedUser(uid, store.users[uid].email, None), found.value));
  }

  /**
   * Rotation revokes: once a refresh overwrote the only session storing a
   * token with a different token, the old one no longer passes the
   * middleware, however long it stays validly signed. The new token must
   * differ: a JWT library whose `iat` and `exp` have one-second resolution
   * signs the same claims twice within one second to the same token, and
   * then the old cookie stays valid.
   */
  lemma RotationRevokesOldToken(users: map<UserId, User>, devices: map<DeviceId, Device>,
                                id: DeviceId, rotated: TokenPair, jwt: Jwt, now: int)
    requires id in devices && rotated.refreshToken != devices[id].refreshToken
    requires forall k :: k in devices && k != id ==> devices[k].refreshToken != devices[id].refreshToken
    ensures !RefreshAccepted(users, Rotate(devices, id, rotated), Some(devices[id].refreshToken), jwt, now)
  {
    var after := Rotate(devices, id, rotated);
    var stale := devices[id].refreshToken;
    forall k | k in after ensures after[k].refreshToken != stale {
      if k != id {
        assert after[k] == devices[k];
      }
    }
  }

  /**
   * A session just issued is usable: with a sound JWT library, its
   * refresh token passes the middleware at the moment it was minted.
   */
  lemma IssuedSessionResolves(users: map<UserId, User>, devices: map<DeviceId, Device>,
                              k: DeviceId, u: User, desc: string, jwt: Jwt, now: int)
    requires Sound(jwt) && u.id in users
    ensures var t := CreateToken(jwt, u.email, u.id, now);
      RefreshAccepted(users, devices[k := NewSession(k, u.id, desc, t)], Some(t.refreshToken), jwt, now)
  {
    var t := CreateToken(jwt, u.email, u.id, now);
    var after := devices[k := NewSession(k, u.id, desc, t)];
    assert k in after && after[k].owner == u.id && after[k].refreshToken == t.refreshToken;
  }
}
