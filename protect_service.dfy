/**
 * The `check-auth` command other services call over RPC
 * (src/controllers/protect/protect.service.ts, `ProtectService.checkAuth`).
 */
module ProtectService {
  import opened Common
  import opened Oracles
  import opened Entities

  const NoToken := Failure(400, "Not token")

  /**
   * `checkAuth`: a missing or empty token fails with 400 before anything
   * is verified; a token that fails verification, or whose id names no
   * user, fails with 401; otherwise the result is the projection of the
   * user with the token's id, which holds no password.
   */
  function CheckAuth(token: Option<string>, jwt: Jwt, now: int, users: map<UserId, User>): (r: Result<UserView>)
    ensures !Present(token) ==> r == Err(NoToken)
    ensures Present(token) ==>
      (r.Ok? <==> jwt.verify(token.value, now).Some? && jwt.verify(token.value, now).value in users)
    ensures Present(token) && r.Err? ==> r.error == NotAuthorized
    ensures r.Ok? ==> r.value == View(users[jwt.verify(token.value, now).value])
  {
    if !Present(token) then Err(NoToken)
    else
      match jwt.verify(token.value, now)
      case None => Err(NotAuthorized)
      case Some(id) => if id in users then Ok(View(users[id])) else Err(NotAuthorized)
  }
}
