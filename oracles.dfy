/**
 * The external pieces the authentication service calls: the bcrypt
 * password hasher, the JWT library and the user-agent parser. None of them
 * is modelled; each is an oracle the caller supplies, so every property
 * proved below holds for any behaviour of these libraries unless a lemma
 * names an assumption about them explicitly (see `Sound`).
 */
module Oracles {
  import opened Common

  type UserId = nat
  type DeviceId = nat
  type Token = string
  type Digest = string

  /** The payload signed into every token (auth.service.ts `createToken`). */
  datatype Claims = Claims(email: string, id: UserId)

  /** Access tokens carry the short configured expiry, refresh tokens the module default. */
  datatype TokenKind = Access | Refresh

  datatype TokenPair = TokenPair(accessToken: Token, refreshToken: Token)

  /**
   * bcrypt: `hash(plaintext, salt)` is the digest produced with a random
   * salt, `check(plaintext, digest)` is `bcrypt.compare`.
   */
  datatype Hasher = Hasher(hash: (string, nat) -> Digest, check: (string, Digest) -> bool)

  /**
   * The JWT service: `sign(claims, kind, clock)` mints a token at wall-clock
   * time `clock` (milliseconds); `verify(token, clock)` yields the id signed
   * into a token whose signature and expiry are valid at `clock`, and None
   * when `verify` throws; `decodeExp(token)` reads the `exp` claim (seconds)
   * without checking the signature, None when the claim is not a number.
   */
  datatype Jwt = Jwt(
    sign: (Claims, TokenKind, int) -> Token,
    verify: (Token, int) -> Option<UserId>,
    decodeExp: Token -> Option<int>)

  /**
   * An assumption some lemmas make about the JWT library (never used by the
   * operations themselves): a token verifies at the moment it is minted,
   * yielding the id it was signed with, and is never the empty string.
   */
  ghost predicate Sound(jwt: Jwt)
  {
    forall c: Claims, k: TokenKind, t: int ::
      jwt.sign(c, k, t) != "" && jwt.verify(jwt.sign(c, k, t), t) == Some(c.id)
  }

  /** The fields of express-useragent's `Details` that the service reads. */
  datatype UserAgent = UserAgent(platform: string, os: string, browser: string)

  /** The device descriptor `${platform} ${os} ${browser}`. */
  function Descriptor(agent: UserAgent): (d: string)
    ensures |d| == |agent.platform| + |agent.os| + |agent.browser| + 2
    ensures d[|agent.platform|] == ' '
  {
    agent.platform + " " + agent.os + " " + agent.browser
  }

  /**
   * `createToken`: an access token and a refresh token over the same
   * claims, minted at `now`. With a sound JWT library both verify, at the
   * moment they are minted, to the id of the user they were issued for.
   */
  function CreateToken(jwt: Jwt, email: string, id: UserId, now: int): (r: TokenPair)
    ensures Sound(jwt) ==> jwt.verify(r.accessToken, now) == Some(id)
    ensures Sound(jwt) ==> jwt.verify(r.refreshToken, now) == Some(id)
    ensures Sound(jwt) ==> r.refreshToken != ""
  {
    var claims := Claims(email, id);
    TokenPair(jwt.sign(claims, Access, now), jwt.sign(claims, Refresh, now))
  }
}
