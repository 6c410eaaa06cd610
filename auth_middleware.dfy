/**
 * The bearer-token helpers of the HTTP middleware
 * (src/services/auth-middleware.service.ts): extracting the token from an
 * `Authorization` header and resolving it to a user.
 */
module AuthMiddleware {
  import opened Common
  import opened Oracles
  import opened Entities
  import ProtectService

  /** `s.split(' ')`: the fields between single spaces, always at least one. */
  function Split(s: string): (fields: seq<string>)
    ensures |fields| >= 1
    ensures forall i :: 0 <= i < |fields| ==> ' ' !in fields[i]
    ensures |fields| == 1 <==> ' ' !in s
  {
    if s == [] then [""]
    else
      var rest := Split(s[1..]);
      assert s == [s[0]] + s[1..];
      if s[0] == ' ' then [""] + rest
      else [[s[0]] + rest[0]] + rest[1..]
  }

  /** Fields joined back with single spaces. */
  function Join(fields: seq<string>): string
    requires |fields| >= 1
  {
    if |fields| == 1 then fields[0] else fields[0] + " " + Join(fields[1..])
  }

  /** Splitting loses nothing: joining the fields gives the string back. */
  lemma {:induction false} JoinSplit(s: string)
    ensures Join(Split(s)) == s
  {
    if s != [] {
      JoinSplit(s[1..]);
      var rest := Split(s[1..]);
      if s[0] != ' ' && |rest| > 1 {
        assert Join(rest) == rest[0] + " " + Join(rest[1..]);
        assert ([[s[0]] + rest[0]] + rest[1..])[1..] == rest[1..];
      } else if s[0] == ' ' {
        assert ([""] + rest)[1..] == rest;
      }
    }
  }

  lemma {:induction false} SplitOfSpaceless(s: string)
    requires ' ' !in s
    ensures Split(s) == [s]
  {
    JoinSplit(s);
  }

  /** A space-free word followed by a space becomes the first field. */
  lemma {:induction false} SplitPrefix(w: string, tail: string)
    requires ' ' !in w
    ensures Split(w + " " + tail) == [w] + Split(tail)
  {
    var s := w + " " + tail;
    if w == [] {
      assert s == [' '] + tail;
      assert s[1..] == tail;
    } else {
      assert w == [w[0]] + w[1..];
      SplitPrefix(w[1..], tail);
      assert s[1..] == w[1..] + " " + tail;
      var rest := Split(s[1..]);
      assert rest == [w[1..]] + Split(tail);
      assert Split(s) == [[w[0]] + rest[0]] + rest[1..];
    }
  }

  /** `t` is the second field of `s`: it follows a space-free first word and one space, and ends at a space or at the end. */
  ghost predicate SecondFieldIs(s: string, t: string)
  {
    exists w, rest :: s == w + " " + t + rest && ' ' !in w && (rest == [] || rest[0] == ' ')
  }

  /** What follows the second field in a join: nothing, or a space and the later fields. */
  function AfterSecond(fields: seq<string>): (rest: string)
    requires |fields| >= 2
    ensures rest == [] || rest[0] == ' '
  {
    if |fields| == 2 then [] else " " + Join(fields[2..])
  }

  /** The first two fields of a join, and the rest after them. */
  lemma JoinFront(fields: seq<string>)
    requires |fields| >= 2
    ensures Join(fields) == fields[0] + " " + fields[1] + AfterSecond(fields)
  {
    assert fields[1..][1..] == fields[2..];
  }

  /** In a join whose first field has no space, the second field sits after the first space. */
  lemma SecondOfJoin(s: string, fields: seq<string>)
    requires |fields| >= 2 && Join(fields) == s && ' ' !in fields[0]
    ensures SecondFieldIs(s, fields[1])
  {
    JoinFront(fields);
    var rest := AfterSecond(fields);
    assert s == fields[0] + " " + fields[1] + rest;
  }

  lemma SecondField(s: string)
    requires |Split(s)| >= 2
    ensures SecondFieldIs(s, Split(s)[1])
  {
    JoinSplit(s);
    SecondOfJoin(s, Split(s));
  }

  predicate StartsWith(s: string, prefix: string)
  {
    |prefix| <= |s| && s[..|prefix|] == prefix
  }

  /**
   * `checkAccessToken`: a header starting with the literal, case-sensitive
   * "Bearer" yields its second space-separated field; a missing or empty
   * header, any other header, or one without a space yields no token.
   */
  function CheckAccessToken(authorization: Option<string>): (token: Option<string>)
    ensures token.Some? <==> authorization.Some? && StartsWith(authorization.value, "Bearer")
                             && ' ' in authorization.value
    ensures token.Some? ==> ' ' !in token.value
    ensures token.Some? ==> SecondFieldIs(authorization.value, token.value)
  {
    if authorization.None? || !StartsWith(authorization.value, "Bearer") then None
    else
      var fields := Split(authorization.value);
      if |fields| >= 2 then
        SecondField(authorization.value);
        Some(fields[1])
      else None
  }

  /**
   * The token is the second field: for any space-free first word `w` that
   * starts with "Bearer" ("Bearer" itself, or "Bearerx"), the token of
   * "<w> <t>" and of "<w> <t> <tail>" is `t`, whatever the tail holds.
   */
  lemma BearerToken(w: string, t: string, tail: string)
    requires StartsWith(w, "Bearer") && ' ' !in w && ' ' !in t
    ensures CheckAccessToken(Some(w + " " + t)) == Some(t)
    ensures CheckAccessToken(Some(w + " " + t + " " + tail)) == Some(t)
  {
    var bare := w + " " + t;
    SplitPrefix(w, t);
    SplitOfSpaceless(t);
    assert bare[..6] == w[..6];
    var long := w + " " + t + " " + tail;
    assert long == w + " " + (t + " " + tail);
    SplitPrefix(w, t + " " + tail);
    SplitPrefix(t, tail);
    assert long[..6] == w[..6];
  }

  /**
   * `findUser`: a token that fails verification, or whose id names no
   * user, fails with 401; otherwise the projection of the user with the
   * token's id.
   */
  function FindUser(token: string, jwt: Jwt, now: int, users: map<UserId, User>): (r: Result<UserView>)
    ensures r.Ok? <==> jwt.verify(token, now).Some? && jwt.verify(token, now).value in users
    ensures r.Err? ==> r.error == NotAuthorized
    ensures r.Ok? ==> r.value == View(users[jwt.verify(token, now).value])
  {
    match jwt.verify(token, now)
    case None => Err(NotAuthorized)
    case Some(id) => if id in users then Ok(View(users[id])) else Err(NotAuthorized)
  }

  /** On a non-empty token the HTTP lookup and the RPC `check-auth` command agree. */
  lemma FindUserAgreesWithCheckAuth(token: string, jwt: Jwt, now: int, users: map<UserId, User>)
    requires token != ""
    ensures FindUser(token, jwt, now, users) == ProtectService.CheckAuth(Some(token), jwt, now, users)
  {
  }
}
