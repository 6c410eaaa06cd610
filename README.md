# Authentication and session engine of intellecta-auth, in Dafny

This project models the credential-and-session authority of the
intellecta-auth service. The model covers:

- password sign-in with its brute-force lockout (a per-account `security`
  record holding `login_attempts`, `login_time`, `is_block` and `device_try`);
- registration and Google sign-in;
- the device-session table: one row per issued token pair, swept for expired
  rows at sign-in, rotated in place on refresh, deleted on logout and deleted
  wholesale on password reset;
- consumption of password-reset codes;
- the refresh-cookie middleware, the `check-auth` RPC command and the
  bearer-header helper;
- the role guard;
- the Joi rules for names and passwords.

Layout (one module per file):

- `common.dfy` (`Common`): Option, Result, Outcome and the `{status, message}` failure.
- `text.dfy` (`Text`): character classes and decimal printing of numbers, with the parse-back lemma.
- `oracles.dfy` (`Oracles`): bcrypt, the JWT library and the user agent, as oracles. Also the
  device descriptor and `createToken`.
- `entities.dfy` (`Entities`): the user, security, actions, profile and device records.
- `lockout.dfy` (`Lockout`): the pre-password checks and the failure write of sign-in.
- `auth_service.dfy` (`AuthService`): the `Store` class (users and devices as maps) and every
  operation of the service.
- `protect_refresh.dfy` (`ProtectRefresh`): the refresh-cookie middleware.
- `protect_service.dfy` (`ProtectService`): `checkAuth`.
- `auth_middleware.dfy` (`AuthMiddleware`): `checkAccessToken` (with a model of `split(' ')`) and
  `findUser`.
- `roles_guard.dfy` (`RolesGuard`): `canActivate`.
- `user_schema.dfy` (`UserSchema`): `userCreateSchema` and `restorePassSchema`.

How the external pieces are represented:

- Wall-clock time is an integer `now` in milliseconds, passed to every operation that reads the
  clock or verifies a token. `logout` does neither, so it takes no `now`.
- bcrypt is a pair of functions the caller supplies: `hash(plaintext, salt)` and
  `check(plaintext, digest)`.
- The JWT library is three functions: `sign(claims, kind, clock)`, `verify(token, clock)`
  (the id, or None when `verify` throws) and `decodeExp(token)`.
- `uuidv4()`, the random salt and `Math.floor(Math.random() * 90000)` are inputs.
- Database-assigned ids come from two counters in the store.
- `Oracles.Sound` says that the JWT library verifies its own fresh tokens. Only
  `ProtectRefresh.IssuedSessionResolves` assumes it, as a requires clause. `Oracles.CreateToken`
  states its token facts conditionally, as `Sound(jwt) ==> ...`.

Points where the code's behaviour is easy to misread:

- **Lockout counting.** The tests at auth.service.ts:79-90 read `login_attempts` before the
  increment at :92-94. From a cleared record, the 6th and the 11th consecutive wrong passwords
  open a one-hour window, and the 16th sets `is_block`. So after five failures a sixth attempt
  with the right password still succeeds (`Lockout.FiveFailuresOpenNoWindow`). The window opens
  on the 6th failure, not the 5th.
- **Reset-code expiry.** The test at :266-267 is a strict `>`. A code exactly five minutes old is
  accepted; one older than that is not.
- **Clearing the security record.** After a correct password, the `update` at :104-110 writes a
  `security` object with three keys. The model therefore clears `device_try` too.
- **Name lengths.** Joi measures `.length`, in UTF-16 code units. A character beyond U+FFFF
  counts twice, so the model counts with `Text.Utf16Length`.
- **Google sign-in.** It checks only `is_block`. It neither checks the cool-down window nor
  writes the security record.

## Model

| member | source | states |
|---|---|---|
| `Oracles.CreateToken` | src/controllers/auth/auth.service.ts:318-326 | Both tokens are signed over the user's email and id. With a sound JWT library, both verify to that id at the moment they are minted. |
| `AuthService.FirstNameOrDefault` | src/controllers/auth/auth.service.ts:137-139 | A present, non-empty first name is kept. Otherwise the name is "user" followed by five decimal digits whose value lies in 10000..99999 (9 characters in all). |
| `Text.ParseDecimalOfDecimal` | src/controllers/auth/auth.service.ts:72 | The decimal text printed into messages and names reads back as the number printed. |
| `Text.DecimalLength` | src/controllers/auth/auth.service.ts:139 | A k-digit number prints as k characters. This is why generated names are 9 characters long. |
| `Oracles.Descriptor` | src/controllers/auth/auth.service.ts:56 | The device descriptor is the platform, a space, the OS, a space and the browser: two characters longer than its parts, with a space right after the platform. |
| `Text.Utf16Length` | src/joi/user.schema.ts:12-21 | JavaScript's length counts one or two code units per character, so it lies between the character count and twice that. |
| `Text.Utf16LengthOfBmp` | src/joi/user.schema.ts:12-21 | For characters up to U+FFFF the JavaScript length is the character count. |
| `Text.Utf16LengthOfAstral` | src/joi/user.schema.ts:12-21 | For characters beyond U+FFFF the JavaScript length is twice the character count. |
| `Lockout.RemainingMinutes` | src/controllers/auth/auth.service.ts:66-72 | The minutes in the 425 message are the remaining milliseconds over 60 000, rounded half up. The value is never negative, and it is at most 60 when `login_time` is not in the future. |
| `Lockout.Gate` | src/controllers/auth/auth.service.ts:58-74 | A blocked account fails with 423, before anything else. Inside the window (`now - login_time < 3 600 000`, strict) the attempt fails with 425. The password is checked only when neither applies. |
| `Lockout.Failed` | src/controllers/auth/auth.service.ts:78-96 | A wrong password increments the counter (restarting at 1 when it is unset or 0) and records the device. `is_block` never clears. It is newly set exactly when the old count is at least 15, from any record, not only a cleared one. `login_time` changes exactly when the old count is 5 or 10, and then it becomes `now`, which opens the window. |
| `Lockout.FailureSchedule` | src/controllers/auth/auth.service.ts:78-96 | From a cleared record, k consecutive failures leave the counter at k and `device_try` at the descriptor. The window opens at the 6th failure and again at the 11th. `is_block` holds exactly from the 16th failure on. |
| `Lockout.FiveFailuresOpenNoWindow` | src/controllers/auth/auth.service.ts:61-96 | After five failures no check stops a sixth attempt before its password is checked. |
| `Lockout.SixthFailureOpensWindow` | src/controllers/auth/auth.service.ts:61-96 | Within the hour after the sixth failure, every attempt fails with 425, whatever its password. The remaining time is at most 60 minutes. |
| `Lockout.SixteenFailuresBlock` | src/controllers/auth/auth.service.ts:58-59 | After the 16th failure, every later attempt fails with 423, whatever failures follow. |
| `Lockout.BlockIsTerminal` | src/controllers/auth/auth.service.ts:87-89 | No sequence of failures ever clears `is_block`. |
| `Lockout.CountRestartsAfterSuccess` | src/controllers/auth/auth.service.ts:92-94 | After a success clears the record, the next failure counts from 1 and opens no window. |
| `AuthService.DescriptorStored` | src/controllers/auth/auth.service.ts:304-311 | The descriptor "platform os browser" is never empty. So the `deviceModel ? deviceModel : null` test always stores it. |
| `AuthService.ExpiryIsPermanent` | src/controllers/auth/auth.service.ts:292-297 | A session expired at one time stays expired later. A session whose `exp` is `expSec` seconds is already expired at `expSec * 1000` milliseconds, and one whose `exp` lies strictly after `now` is not. |
| `AuthService.Rotate` | src/controllers/auth/auth.service.ts:225-228 | Rotation keeps the table's keys and every other row. It replaces both tokens of the rotated row and keeps its id, owner and descriptor. |
| `AuthService.ResetGate` | src/controllers/auth/auth.service.ts:259-272 | A reset passes exactly when the account is not blocked, the code has an issue time, and `now` is at most five minutes after it. A blocked account fails with 423, otherwise the failure is the 400 "expired" one. |
| `AuthService.RefreshGate` | src/controllers/auth/auth.service.ts:212-221 | A descriptor different from the session's fails with 401 "untrusted device", before the block check. Then a blocked stored account fails with 423. Otherwise the refresh goes ahead. |
| `AuthService.RefreshGateAsWritten` | src/controllers/auth/auth.service.ts:212-221 | As written, the same two checks read `is_block` from the user the middleware delivered. A foreign descriptor fails with 401. When `security` was not loaded, the device check is the only check that can fail. |
| `AuthService.BlockedAccountRefreshesAsWritten` | src/middlewares/protect-refresh.middleware.ts:42-51 | A blocked account, loaded with only id and email, passes the refresh checks as written. The corrected gate rejects it with 423. |
| `AuthService.Store.FindByEmail` | src/controllers/auth/auth.service.ts:35-48 | Finds the account registered under an email, or reports that there is none. |
| `AuthService.Store.LoadDevices` | src/controllers/auth/auth.service.ts:37-39 | The loaded `devices` relation lists each stored session of the user once, and nothing else. |
| `AuthService.Store.DeleteOldSession` | src/controllers/auth/auth.service.ts:289-302 | Deletes exactly the listed sessions whose refresh-token `exp * 1000 <= now`, or whose `exp` is missing. Keeps every other row and changes no user. |
| `AuthService.Store.AddDeviceAuth` | src/controllers/auth/auth.service.ts:304-316 | Adds exactly one new row under a fresh id. The row holds the user, the descriptor and the pair `createToken` minted. |
| `AuthService.Store.SweepAndIssue` | src/controllers/auth/auth.service.ts:112-114 | The user's expired sessions are removed, then one new session is added. No other row changes. |
| `AuthService.Store.SignIn` | src/controllers/auth/auth.service.ts:30-117 | An unknown email and a wrong password both fail with the same 401. A `Gate` failure changes nothing and ignores the password. A wrong password writes only `Failed(security)` to that account. A correct password clears the record, sweeps, adds one session and returns the account with its password scrubbed. |
| `AuthService.Store.SignUp` | src/controllers/auth/auth.service.ts:119-159 | A taken email fails with 401 and changes nothing. Otherwise it creates exactly one user, with cleared security and actions, the hashed password and the defaulted first name, plus exactly one session. The password is scrubbed from the result. |
| `AuthService.Store.AuthGoogle` | src/controllers/auth/auth.service.ts:161-205 | A known blocked account fails with 423 and nothing changes. A known account otherwise gets the sweep and one session, and no user record changes. An unknown email creates one user, with the hash of the uuid as its password, and one session. |
| `AuthService.Store.Refresh` | src/controllers/auth/auth.service.ts:207-233 | A `RefreshGate` failure changes nothing. On success the new pair replaces the tokens of the resolved row only. No row is added or removed and no user changes. |
| `AuthService.Store.Logout` | src/controllers/auth/auth.service.ts:235-238 | Deletes the resolved session and nothing else. |
| `AuthService.Store.RestorePassword` | src/controllers/auth/auth.service.ts:240-287 | No holder of the code: 400 and nothing changes. A holder failing `ResetGate`: that failure, and nothing changes. Otherwise, in one step, the holder's password becomes the new hash, its actions become {null, null, 0} and every one of its sessions is deleted. |
| `ProtectRefresh.FindByRefreshToken` | src/middlewares/protect-refresh.middleware.ts:56-58 | Returns the first listed session whose refresh token equals the cookie, and None exactly when no session stores it. |
| `ProtectRefresh.Resolve` | src/middlewares/protect-refresh.middleware.ts:18-66 | The request goes through exactly when four things hold: the cookie is non-empty, it verifies, its id names a user, and one of that user's sessions stores it. Every failure is 401 "Not authorized". The delivered session belongs to the delivered user, which carries only id and email. |
| `ProtectRefresh.RotationRevokesOldToken` | src/controllers/auth/auth.service.ts:225-228 | Once a refresh overwrote the only session holding a token, that token no longer passes the middleware. |
| `ProtectRefresh.IssuedSessionResolves` | src/controllers/auth/auth.service.ts:304-316 | With a sound JWT library, a freshly issued session's refresh token passes the middleware. |
| `ProtectService.CheckAuth` | src/controllers/protect/protect.service.ts:16-61 | A missing or empty token fails with 400 "Not token". A token that fails verification, or names no user, fails with 401. Otherwise the result is the projection, without the password, of the user with the token's id. |
| `AuthMiddleware.Split` | src/services/auth-middleware.service.ts:18 | `split(' ')` yields at least one field, and no field contains a space. It yields one field exactly when the string has no space. |
| `AuthMiddleware.JoinSplit` | src/services/auth-middleware.service.ts:18 | Joining the fields with single spaces gives the header back. |
| `AuthMiddleware.CheckAccessToken` | src/services/auth-middleware.service.ts:17-19 | A token comes out exactly when the header is present, starts with the case-sensitive "Bearer" and contains a space. The token is the second field: it follows a space-free first word and one space, contains no space, and ends at a space or at the end of the header. |
| `AuthMiddleware.SecondField` | src/services/auth-middleware.service.ts:18 | The second field of `split(' ')` follows the first field and one space, and ends at a space or at the end of the string. |
| `AuthMiddleware.BearerToken` | src/services/auth-middleware.service.ts:18 | For any space-free first word w starting with "Bearer" (such as "Bearerx"), the token of "w t" and of "w t <anything>" is t, for any space-free t. |
| `AuthMiddleware.FindUser` | src/services/auth-middleware.service.ts:21-58 | A verification failure or an unknown id fails with 401. Otherwise the result is the projection of the user with the token's id. |
| `AuthMiddleware.FindUserAgreesWithCheckAuth` | src/services/auth-middleware.service.ts:21-58 | On a non-empty token, the HTTP lookup and the RPC command give the same answer. |
| `RolesGuard.FindProfile` | src/guard/role/roles.guard.ts:25-27 | Finds a listed profile the required roles admit, and None exactly when there is none. |
| `RolesGuard.CanActivate` | src/guard/role/roles.guard.ts:11-32 | A request is let through exactly when no role is required, or when the user has a profile that the required roles admit. |
| `RolesGuard.CanActivateSpec` | src/guard/role/roles.guard.ts:14-31 | No required role admits everyone. Otherwise a user without profiles is refused. A user with profiles is admitted exactly when MAKER is required or one of its profiles has a required role. |
| `RolesGuard.MoreRolesAdmitMore` | src/guard/role/roles.guard.ts:25-31 | Adding a role to a non-empty required list never turns an admitted request away. |
| `UserSchema.CheckName` | src/joi/user.schema.ts:12-21 | A name is accepted exactly when it is present and its JavaScript length is 2..30 UTF-16 code units. A missing name is reported as missing. An empty name gets "The name is empty.". A non-empty name that is too short gets the "less than 2" message, and one that is too long gets the "more than 30" message. |
| `UserSchema.NameLengthInCodeUnits` | src/joi/user.schema.ts:12-16 | One emoji (length 2) is an accepted name. Sixteen emoji (length 32) are rejected as too long. |
| `UserSchema.AheadReaches` | src/joi/user.schema.ts:23 | The lookahead `(?=.*X)` at i succeeds exactly when some X occurs at or after i with no line terminator before it. |
| `UserSchema.CheckPassword` | src/joi/user.schema.ts:22-29 | A password is accepted exactly when it is present and the pattern matches somewhere in it. A missing password is reported as missing. An empty one gets "The password is empty.". Any other non-matching password gets the pattern message. |
| `UserSchema.CheckRegistration` | src/joi/user.schema.ts:3-31 | A body is accepted exactly when the email passes, both names are 2..30 UTF-16 code units long and the password matches. |
| `UserSchema.CheckRestore` | src/joi/user.schema.ts:33-44 | The reset body requires the password, under the same rule as registration. |
| `UserSchema.AcceptedHasRun` | src/joi/user.schema.ts:23 | Every accepted password holds 8 consecutive ASCII letters or digits, so it is at least 8 long. |
| `UserSchema.MissingClassRejected` | src/joi/user.schema.ts:23 | A password with no digit, or with no capital A-Z, is rejected. |
| `UserSchema.AlnumAccepted` | src/joi/user.schema.ts:23 | Letters and digits only, at least 8 long, with a digit and a capital: accepted, even when longer than 30. |
| `UserSchema.SurroundingsKeepAcceptance` | src/joi/user.schema.ts:23 | Any characters before or after an accepted password keep it accepted, because the pattern is unanchored. |
| `UserSchema.TypicalPasswordAccepted` | src/joi/user.schema.ts:23 | "Abcdef12" is accepted. |

## Findings

| source | as written | input that shows it | evidently intended | confidence | as-written member | corrected member |
|---|---|---|---|---|---|---|
| src/controllers/auth/auth.service.ts:220-221 | `refreshToken` tests `user?.security?.is_block`. Its `user` comes from the refresh middleware, which selects only `id` and `email` (protect-refresh.middleware.ts:47-50). So `security` is undefined there and the test never fires. | An account with `is_block` true and a live session, refreshing from the same device | A blocked account cannot rotate its tokens. This is the 423 the same service gives at sign-in and Google sign-in. | medium, not executed; it rests on TypeORM loading only the selected columns | `AuthService.BlockedAccountRefreshesAsWritten` (over `AuthService.RefreshGateAsWritten`) | `AuthService.RefreshGate`, used by `AuthService.Store.Refresh` |

## Left out

- bcrypt, JWT signing/verification/decoding, `uuidv4` and `Math.random` are oracle inputs, not
  models. As a result, the claim that the old password hash stops verifying after a reset is
  not stated: it depends on bcrypt.
- Token lifetimes come from environment variables (`JWT_EXPIRE_ACCESS_TOKEN`,
  `JWT_EXPIRE_REFRESH_TOKEN`). They are folded into the `sign` and `verify` oracles.
- TypeORM is replaced by maps:
  - Projections are modelled only where they decide behaviour (the middleware's id/email user).
  - The jsonb `@>` lookup is the exact equality `actions.code == key`.
  - `delete(entity)` deletes by id.
  - The reset transaction is one atomic step.
- Devices are not returned inside the account that sign-in, registration and Google sign-in
  return.
- The `verified` column is not modelled. It is projected by `checkAuth`/`findUser`, but its value
  comes from the entity library, which is not part of this model.
- `deleteOldSession` runs its deletions concurrently (`Promise.all`); the model runs them one
  after another. This makes no difference, because they touch distinct rows.
- A token whose `decode` returns null (not a JWT at all) would make the sweep throw; the model
  does not cover that case. Stored tokens are always ones the service signed.
- Concurrency is left out: the read-then-write races between simultaneous requests, and the up
  to three separate saves of a failed sign-in, which the model writes as one update.
- The `RolesGuard.canActivate` crash when a handler declares no roles metadata
  (`roles` undefined) is not modelled. Roles are always a list.
- Joi's email format check is an input to `UserSchema.CheckRegistration`, not a model. Also left
  out: Joi's rejection of unknown keys, and of non-string values.
- Controllers, cookies, redirects, the exception filter, module wiring and `console.log` calls
  are HTTP/RPC glue and are not modelled.
- Code issuance for password resets happens outside this repository and is not modelled.
- The password pattern runs over characters, not UTF-16 code units. This does not change its
  verdict: the classes it tests and the line terminators are all single code units, and the two
  halves of a surrogate pair are neither.
- `ProtectRefresh.RotationRevokesOldToken` requires the new refresh token to differ from the old
  one. A JWT library whose `iat` and `exp` have one-second resolution gives the same token for
  two refreshes within one second, and then the old cookie stays valid.
- `AuthService.Store.RestorePassword`: when several accounts hold the same code, the query's
  `getOne` picks one in an unspecified order. The model picks any one of them.
