/** The records the authentication service reads and writes. */
module Entities {
  import opened Common
  import opened Oracles

  /**
   * The `security` column of a user: the failed-attempt counter, the start
   * of the current cool-down window (milliseconds), the block flag and the
   * descriptor of the device of the last failed attempt.
   */
  datatype Security = Security(
    loginAttempts: Option<int>,
    loginTime: Option<int>,
    isBlock: bool,
    deviceTry: Option<string>)

  /** The `actions` column: the active reset code, when it was issued, a reserved counter. */
  datatype Actions = Actions(code: Option<string>, timeAt: Option<int>, numberTries: int)

  /**
   * A member of the role enumeration; `Maker` is the one the role guard
   * treats specially. `OtherRole` never carries MAKER's own name: the
   * enumeration's values are distinct, so each role has one form here.
   */
  datatype Role = Maker | OtherRole(name: string)

  datatype Profile = Profile(id: nat, role: Role, title: string)

  datatype Settings = Settings(profileDefault: Option<nat>)

  /**
   * A user row. `password` is the bcrypt digest; it is None only in the
   * copies the service returns to its callers, which scrub it.
   */
  datatype User = User(
    id: UserId,
    email: string,
    password: Option<Digest>,
    firstName: Option<string>,
    lastName: Option<string>,
    image: Option<string>,
    settings: Settings,
    security: Security,
    actions: Actions,
    profiles: seq<Profile>)

  /** A device-session row: one token pair bound to one device descriptor of one user. */
  datatype Device = Device(
    id: DeviceId,
    owner: UserId,
    deviceModel: Option<string>,
    accessToken: Token,
    refreshToken: Token)

  /** The security record of a new or freshly authenticated account. */
  const ClearedSecurity := Security(None, None, false, None)

  /** The action record of a new account and of one whose reset code was consumed. */
  const ClearedActions := Actions(None, None, 0)

  /**
   * The projection the token-checking paths load: id, names, image, email,
   * settings, security and profiles, and never the password digest.
   */
  datatype UserView = UserView(
    id: UserId,
    firstName: Option<string>,
    lastName: Option<string>,
    image: Option<string>,
    email: string,
    settings: Settings,
    security: Security,
    profiles: seq<Profile>)

  function View(u: User): UserView
  {
    UserView(u.id, u.firstName, u.lastName, u.image, u.email, u.settings, u.security, u.profiles)
  }
}
