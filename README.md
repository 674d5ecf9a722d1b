# Authentication core of portal-taco, in Dafny

This project models the authentication layer of the portal-taco web application, a
Next.js application written in TypeScript. The modelled parts are:

- the configuration;
- the HS256 session and verification tokens;
- the six-digit e-mailed codes and their table;
- the request schemas;
- the cookie helpers;
- the access gate and role check, and the application's public-path list;
- the `/api/v1/auth` handlers: login, signup, verify, send-code, reset-password and logout;
- `GET /api/v1/user`;
- the older `/api/auth` login, verify and logout handlers;
- the client's first-name helper.

Each handler is a pure transition `Route(body, ctx, world) -> Outcome(response, world')`.
The `World` holds four things:

- the `users` table;
- the `verification_codes` table;
- the browser's cookie store;
- the e-mails sent.

`Ctx` gathers what a request depends on besides that state:

- the environment variables;
- the clock, in milliseconds;
- the value `Math.random()` supplies, scaled to a `CodeSeed` in `[0, 900000)`;
- whether the database answers;
- the role column's default;
- the zod e-mail test;
- bcrypt's hash and compare;
- the Turnstile service's verdict.

Every handler also has an imperative `Post` method. It acts on four mutable objects
(`UserRepository`, `CodeStore`, `CookieJar` and `Mailer`), one statement per step of the
source. Its `ensures` says that the response and the new state of the objects are what
the transition gives for the old state.

The older handlers run the same steps as the current ones and differ only in how they
write cookies:

- `Direct` is `cookies().set`/`.delete` with no `sameSite` or `path`;
- `Helpers` is `setSecureCookie`/`clearCookie`.

Lemmas show that the two styles give the same responses and tables. Handlers cannot tell
the resulting cookie stores apart (`ServerCookies.Seen`).

Modules follow the source files:

| file | module | source |
|---|---|---|
| `wrappers.dfy` | `Wrappers` | the `Option`/`Result` datatypes |
| `purpose.dfy` | `Purpose` | the `"2FA" \| "PASSWORD_RESET"` code type |
| `decimal.dfy` | `Decimal` | `Number.prototype.toString` and `parseInt` on decimal text |
| `config.dfy` | `AuthConfig` | `src/lib/auth/config.ts` |
| `jwt.dfy` | `Jwt` | `src/lib/auth/jwt.ts` |
| `auth_utils.dfy` | `AuthUtils` | `src/lib/auth/utils.ts` |
| `schemas.dfy` | `Schemas` | `src/lib/auth/schemas.ts` |
| `server_cookies.dfy` | `ServerCookies` | `src/lib/auth/server-cookies.ts` |
| `users.dfy` | `Users` | the Prisma `user` calls of the handlers |
| `flow.dfy` | `Flow` | the state, context, responses and shared steps of the handlers |
| `auth_middleware.dfy` | `AuthMiddleware` | `src/lib/auth/middleware.ts` |
| `app_middleware.dfy` | `AppMiddleware` | `src/middleware.ts` |
| `*_route.dfy` | `LoginRoute` … `UserRoute` | `src/app/api/v1/.../route.ts` |
| `legacy_*_route.dfy` | `LegacyLoginRoute` … | `src/app/api/auth/.../route.ts` |
| `user_context.dfy` | `UserContext` | `src/contexts/UserContext.tsx` |
| `flow_properties.dfy` | `FlowProperties` | properties of journeys through several handlers |

Two behaviours of the code are easy to miss:

- The verify step does not check the token's purpose or compare the code's owner with the
  token's user. `VerifyRoute.CodeNotBoundToToken` and `VerifyRoute.ResetTokenAccepted`
  state this as-written behaviour.
- The gate accepts any verifying token in the session cookie, including a verification
  token. `AuthMiddleware.VerificationTokenPassesGate` states this.

## Model

| member | source | states |
|---|---|---|
| Purpose.TagInjective | src/lib/auth/jwt.ts:15 | the two code types have different tags (`"2FA"`, `"PASSWORD_RESET"`) |
| Decimal.NatToString | src/lib/auth/utils.ts:24 | the decimal text of a number is non-empty, all digits, with no leading zero unless it is `"0"` |
| Decimal.NatToStringValue | src/lib/auth/utils.ts:24 | the digits of `String(n)` read back as `n` |
| Decimal.NatToStringLength | src/lib/auth/utils.ts:24 | a number in `[10^(k-1), 10^k)` has a `k`-digit text |
| Decimal.LeadingDigits | src/app/api/v1/auth/verify/route.ts:66 | the longest all-digit prefix: a prefix, all digits, and stopped at a non-digit or the end |
| Decimal.ParseInt | src/app/api/v1/auth/verify/route.ts:66 | `parseInt` is a number iff a digit follows the optional sign (otherwise NaN) |
| Decimal.ParseIntOfNatToString | src/app/api/v1/auth/login/route.ts:112 | `parseInt(String(id)) === id`: the id cookie reads back as the id written |
| Decimal.ParseIntOfNonDigit | src/app/api/v1/auth/verify/route.ts:66 | text starting with a non-digit other than a sign is NaN |
| AuthConfig.JwtSecret | src/lib/auth/config.ts:16 | the signing secret is never empty |
| AuthConfig.JwtSecretFallback | src/lib/auth/config.ts:16 | an unset or empty `JWT_SECRET` gives the development secret; otherwise the variable's value |
| AuthConfig.TwoFactorExactlyInProduction | src/lib/auth/config.ts:31-38 | two-factor login is on exactly when `NODE_ENV` or `NEXT_PUBLIC_APP_ENV` is `production` |
| AuthConfig.CookieNamesDistinct | src/lib/auth/config.ts:5-7 | the three cookie names are pairwise different |
| AuthConfig.MergedAuthConfig | src/lib/auth/config.ts:24-27 | the merged record has the shared keys, plus the server keys exactly on the server, with their values |
| Jwt.VerifyToken | src/lib/auth/jwt.ts:50-58 | accepted iff signed with HS256 under the current secret and `now` in seconds is before `exp`; then the claims; one error otherwise |
| Jwt.SessionTokenLifetime | src/lib/auth/jwt.ts:20-32 | a session token is HS256 under the secret, carries the claims and expires 604800 s after its issue second |
| Jwt.VerificationExpiresFirst | src/lib/auth/jwt.ts:35-47 | a verification token expires 300 s after issue, before a session token issued at the same time |
| Jwt.SignThenVerify | src/lib/auth/jwt.ts:20-58 | a token verified before its expiry gives back its claims |
| Jwt.ExpiredTokenRefused | src/lib/auth/jwt.ts:50-58 | from its expiry second on, a token is refused |
| Jwt.ExpiredAndForgedIndistinguishable | src/lib/auth/jwt.ts:55-57 | an expired token and a foreign-secret token fail alike, with "Token inválido ou expirado" |
| Jwt.PlainTextRefused | src/lib/auth/jwt.ts:50-58 | any text that is not a signed token, the empty string included, is refused |
| Jwt.WrappersIgnoreTokenKind | src/lib/auth/jwt.ts:61-72 | the session check accepts a verification token, and the reverse |
| AuthUtils.GenerateVerificationCode | src/lib/auth/utils.ts:23-25 | the code is six digits, the first not `0`, with value `100000 + seed` |
| AuthUtils.SaveVerificationCode | src/lib/auth/utils.ts:27-47 | a fresh id with the row (code, type, user, now + 5 min); it is the only row of its (user, type) pair; all other rows are kept; the table stays valid |
| AuthUtils.VerifyCode | src/lib/auth/utils.ts:49-80 | true iff the row exists, has not expired and its code matches; an expired or matched row is deleted; a mismatch keeps it |
| AuthUtils.SingleUse | src/lib/auth/utils.ts:74-77 | once accepted, the same id and code are refused |
| AuthUtils.Supersession | src/lib/auth/utils.ts:33-34 | saving a second code for a pair makes the first code's id unusable |
| AuthUtils.SaveKeepsOtherPairs | src/lib/auth/utils.ts:34 | saving a code leaves a code of another pair usable |
| AuthUtils.RetryAfterMismatch | src/lib/auth/utils.ts:72-79 | a wrong code changes nothing, and the right code is then still accepted |
| AuthUtils.FreshCodeWindow | src/lib/auth/utils.ts:37-38 | a fresh code is accepted up to 300000 ms after saving, and not after |
| AuthUtils.CodeStore.Save | src/lib/auth/utils.ts:27-47 | the store and the id returned are those of `SaveVerificationCode` |
| AuthUtils.CodeStore.Verify | src/lib/auth/utils.ts:49-80 | the store and the answer are those of `VerifyCode` |
| AuthUtils.SendVerificationEmail | src/lib/auth/utils.ts:83-114 | a console log iff not production and no Resend key; otherwise from `EMAIL_FROM` to the user, subject by type, the code in the text |
| AuthUtils.MailDeterminesCode | src/lib/auth/utils.ts:97-100 | two equal production mails of the same type carry the same code |
| AuthUtils.VerifyTurnstileToken | src/lib/auth/utils.ts:117-142 | true outside production; in production, the service's verdict |
| AuthUtils.TurnstileBypassedOutsideProduction | src/lib/auth/utils.ts:119-121 | outside production any token passes, whatever the service says |
| Schemas.ChecksIssues | src/lib/auth/schemas.ts:4-59 | a field has no issue iff it passes every check; its issues are never of the refine or the type kind |
| Schemas.FieldIssues | src/lib/auth/schemas.ts:4-59 | no issue iff the field has the right type and passes its checks; a wrong type is one type issue |
| Schemas.ParseLogin | src/lib/auth/schemas.ts:4-8 | accepted iff the e-mail is valid, the password has at least 6 characters and the token is a string or absent; then the data; an error lists at least one issue |
| Schemas.ParseVerification | src/lib/auth/schemas.ts:13-15 | accepted iff the code is a string of length 6; too long or too short gives that one issue |
| Schemas.ParseRequestReset | src/lib/auth/schemas.ts:20-23 | accepted iff the e-mail is valid and the token is a string or absent |
| Schemas.ParseReset | src/lib/auth/schemas.ts:30-41 | accepted iff code length 6, both passwords at least 6 and equal; the mismatch issue appears iff all fields are typed but the passwords differ |
| Schemas.ParseSignup | src/lib/auth/schemas.ts:46-59 | accepted iff name ≥ 2, valid e-mail, passwords ≥ 6 and equal, token a string or absent; the mismatch rule as for reset |
| Schemas.SignupIgnoresRole | src/lib/auth/schemas.ts:46-52 | a `role` field in the body does not change the parse |
| Schemas.MismatchReportedWithShortPassword | src/lib/auth/schemas.ts:56-59 | the refine runs next to a too-short password and reports the mismatch |
| Schemas.NonDigitCodeAccepted | src/lib/auth/schemas.ts:13-15 | `"abcdef"` passes the code schema: only the length is checked |
| ServerCookies.SecureAttributes | src/lib/auth/server-cookies.ts:10-18 | HTTP-only, `secure` iff production, `lax`, path `/`, the given lifetime |
| ServerCookies.Set | src/app/api/v1/auth/login/route.ts:135-141 | the cookie is stored under its name; other cookies unchanged |
| ServerCookies.Delete | src/app/api/v1/auth/logout/route.ts:8 | the cookie is gone; other cookies unchanged |
| ServerCookies.GetCookie | src/lib/auth/server-cookies.ts:35-37 | the value when the cookie is there, else none |
| ServerCookies.Seen | src/lib/auth/server-cookies.ts:35-37 | exactly the cookies with a truthy value, with those values |
| ServerCookies.GetAfterSetSecure | src/lib/auth/server-cookies.ts:5-19 | reading a cookie just set gives its value |
| ServerCookies.ClearedIsAbsent | src/lib/auth/server-cookies.ts:22-32 | a cleared cookie looks to every handler like a deleted one |
| ServerCookies.ClearIdempotent | src/lib/auth/server-cookies.ts:22-32 | clearing twice is clearing once |
| ServerCookies.CookieJar.Get | src/app/api/v1/auth/verify/route.ts:36-41 | a value iff the store holds the named cookie, and then that cookie's value |
| ServerCookies.CookieJar.Put | src/app/api/v1/auth/login/route.ts:135-141 | the store becomes `Set` of the old one |
| ServerCookies.CookieJar.Remove | src/app/api/v1/auth/logout/route.ts:8 | the store becomes `Delete` of the old one |
| ServerCookies.CookieJar.SetSecure | src/lib/auth/server-cookies.ts:5-19 | the store becomes `SetSecureCookie` of the old one |
| ServerCookies.CookieJar.Clear | src/lib/auth/server-cookies.ts:22-32 | the store becomes `ClearCookie` of the old one |
| Users.FindByEmail | src/app/api/v1/auth/login/route.ts:50-52 | found iff some row has the e-mail; the row found has it |
| Users.FindById | src/app/api/v1/auth/verify/route.ts:75-78 | found iff some row has the id; the row found has it |
| Users.FindByIdOfMember | src/app/api/v1/auth/verify/route.ts:75-78 | with unique ids, the lookup by a row's id finds that row |
| Users.FindByEmailOfMember | src/app/api/v1/auth/login/route.ts:50-52 | with unique e-mails, the lookup by a row's e-mail finds that row |
| Users.CreateUser | src/app/api/v1/auth/signup/route.ts:62-70 | refused iff the e-mail exists; else the next id, appended, table valid, the new row found by its e-mail |
| Users.AppendedIsFound | src/app/api/v1/auth/signup/route.ts:62-70 | an appended row with a new e-mail keeps the table valid and is found |
| Users.SetPasswordHash | src/app/api/v1/auth/reset-password/route.ts:89-92 | only the rows with the id get the new hash; the rest are unchanged |
| Users.UpdatePasswordHash | src/app/api/v1/auth/reset-password/route.ts:89-92 | the id counter is kept, the rows are `SetPasswordHash`, validity is kept |
| Users.UpdateThenFind | src/app/api/v1/auth/reset-password/route.ts:89-92 | after the update, the user's e-mail finds the row with the new hash; other e-mails find what they found before |
| Users.FindByEmailUnaffected | src/app/api/v1/auth/reset-password/route.ts:89-92 | updating another user's hash does not change a lookup by e-mail |
| Users.UserRepository.FindUniqueByEmail | src/app/api/v1/auth/login/route.ts:50-52 | found iff some row has the e-mail; the row found has it, and in a valid table it is the only such row |
| Users.UserRepository.FindUniqueById | src/app/api/v1/auth/verify/route.ts:75-78 | found iff some row has the id; the row found has it, and in a valid table it is the only such row |
| Users.UserRepository.Create | src/app/api/v1/auth/signup/route.ts:62-70 | the repository and the result are those of `CreateUser` |
| Users.UserRepository.Update | src/app/api/v1/auth/reset-password/route.ts:89-92 | the repository becomes `UpdatePasswordHash` of the old one |
| Flow.DirectAttributes | src/app/api/v1/auth/login/route.ts:101-107 | HTTP-only, `secure` iff production, no `sameSite` or path, the given lifetime |
| Flow.WriteCookie | src/app/api/v1/auth/login/route.ts:101-116 | the cookie reads back with its value and lifetime, with the attributes of the style; other cookies unchanged |
| Flow.RemoveCookie | src/app/api/auth/verify/route.ts:95-96 | the cookie is no longer present, and the store looks like one where it was deleted |
| Flow.ClearVerificationCookies | src/app/api/v1/auth/verify/route.ts:56-57 | neither verification cookie is present; the session cookie unchanged |
| Flow.NameClaim | src/app/api/v1/auth/login/route.ts:96 | `name: user.name \|\| undefined`: the claim is there iff the name is non-empty |
| Flow.ParseId | src/app/api/v1/auth/verify/route.ts:66 | `parseInt` of the id cookie's text |
| Flow.ParseIdOfWrittenId | src/app/api/v1/auth/login/route.ts:112 | the id cookie written by a handler reads back as the code's id |
| Flow.StartVerification | src/app/api/v1/auth/login/route.ts:80-124 | the code saved, the id cookie naming it, the token cookie, both for 300 s, the session cookie kept, the e-mail appended, the world valid |
| Flow.SameValuesSeen | src/lib/auth/server-cookies.ts:35-37 | stores with the same values look the same to handlers |
| Flow.WriteCookieStyles | src/app/api/auth/login/route.ts:95-105 | a direct write and a helper write keep two stores alike |
| Flow.WriteCookieSeen | src/app/api/auth/verify/route.ts:88-92 | the same write in either style keeps two stores looking the same |
| Flow.RemoveCookieSeen | src/app/api/auth/verify/route.ts:95-96 | deleting and clearing keep two stores looking the same |
| Flow.StartVerificationStyles | src/app/api/auth/login/route.ts:95-105 | starting verification in either style gives the same tables, mail and cookie values |
| Flow.Mailer.Send | src/lib/auth/utils.ts:102-107 | the mail is appended to those sent |
| Flow.StartVerificationOn | src/app/api/v1/auth/login/route.ts:80-116 | the objects end as `StartVerification` of the old world |
| Flow.WriteCookieOn | src/app/api/v1/auth/login/route.ts:135-141 | the store becomes `WriteCookie` of the old one |
| Flow.RemoveCookieOn | src/app/api/v1/auth/verify/route.ts:107-108 | the store becomes `RemoveCookie` of the old one |
| Flow.ClearVerificationCookiesOn | src/app/api/v1/auth/verify/route.ts:56-57 | the store becomes `ClearVerificationCookies` of the old one |
| AuthMiddleware.IsPublic | src/lib/auth/middleware.ts:17-24 | public iff some entry matches: a raw prefix, or `/` for the home page only |
| AuthMiddleware.Authorize | src/lib/auth/middleware.ts:5-51 | passes iff public or the session token verifies; otherwise a redirect to the login page carrying the path |
| AuthMiddleware.PublicUnderDefaultList | src/lib/auth/middleware.ts:7-24 | under the default list, exactly the paths under the four authentication pages are public |
| AuthMiddleware.AuthorizeDefault | src/lib/auth/middleware.ts:5-51 | with the default list: passes iff under one of the four pages or with a verifying session token; else a redirect |
| AuthMiddleware.DefaultListGatesHome | src/lib/auth/middleware.ts:7-12 | without a session, `/auth/login…` passes and `/` is redirected |
| AuthMiddleware.CheckRole | src/lib/auth/middleware.ts:54-69 | true iff the session token verifies and its role is in the list; false without a cookie |
| AuthMiddleware.PrefixIgnoresSegments | src/lib/auth/middleware.ts:21 | `/authx` is public under `/auth` |
| AuthMiddleware.SessionTokenPasses | src/lib/auth/middleware.ts:41-50 | a session token passes everywhere until its expiry second, and only public paths pass after |
| AuthMiddleware.VerificationTokenPassesGate | src/lib/auth/middleware.ts:41-44 | a live verification token in the session cookie passes the gate |
| AuthMiddleware.VerificationTokenFailsRoleCheck | src/lib/auth/middleware.ts:63-65 | such a token has no role and fails every role check |
| AppMiddleware.Middleware | src/middleware.ts:5-17 | passes iff home page, under `/auth`, `/api/v1/auth`, `/images` or `/public`, or with a verifying session token; else a redirect |
| AppMiddleware.PublicUnderAppList | src/middleware.ts:5-11 | the list's public paths are the home page and the four prefixes |
| AppMiddleware.HomeExactOnly | src/middleware.ts:8 | `/` is public, `/explore` is not |
| AppMiddleware.ApiPaths | src/middleware.ts:5-17 | `/api/v1/auth/…` passes without a session; `/api/v1/user` is redirected |
| AppMiddleware.LegacyEndpointsGated | src/middleware.ts:5-17 | `/api/auth/…` without a session is redirected to the login page |
| LoginRoute.Login | src/app/api/v1/auth/login/route.ts:23-165 | statuses 200/400/401/403/500; 200 iff valid body, challenge, database, known active user and matching password; only 200 writes; users untouched; validity kept |
| LoginRoute.Post | src/app/api/v1/auth/login/route.ts:23-165 | the response and the objects are those of `Login` |
| LoginRoute.UnknownEmailLooksLikeWrongPassword | src/app/api/v1/auth/login/route.ts:55-77 | an unknown e-mail and a wrong password get the same response |
| LoginRoute.InactiveBeforePassword | src/app/api/v1/auth/login/route.ts:63-68 | an inactive account gets 403 whatever the password, and nothing is written |
| LoginRoute.MissingChallengeTokenSkipsCheck | src/app/api/v1/auth/login/route.ts:39 | an absent or empty Turnstile token skips the check |
| LoginRoute.TwoFactorLoginEffects | src/app/api/v1/auth/login/route.ts:80-124 | a two-factor login saves and sends the code, writes both cookies for 300 s, keeps the session cookie |
| LoginRoute.DirectLoginEffects | src/app/api/v1/auth/login/route.ts:125-155 | a login without two-factor returns the profile and writes a week-long session cookie with no `sameSite` or path; codes and mail untouched |
| SignupRoute.NewUser | src/app/api/v1/auth/signup/route.ts:59-70 | the row stored: next id, e-mail, name, password hash, default role, active; found by its e-mail |
| SignupRoute.Signup | src/app/api/v1/auth/signup/route.ts:17-135 | statuses 201/400/409/500; 201 iff valid body, challenge, database and a new e-mail; only 201 writes; without two-factor no cookie or code (the whole outcome is in `DirectSignupEffects`) |
| SignupRoute.Post | src/app/api/v1/auth/signup/route.ts:17-135 | the response and the objects are those of `Signup` |
| SignupRoute.SignupStoresHashedActiveUser | src/app/api/v1/auth/signup/route.ts:59-70 | after signup the e-mail finds the hashed, active row with the default role |
| SignupRoute.DuplicateEmailRefused | src/app/api/v1/auth/signup/route.ts:47-56 | a taken e-mail gets 409 and nothing is written |
| SignupRoute.TwoFactorSignupEffects | src/app/api/v1/auth/signup/route.ts:73-112 | with two-factor on, signup stores the user and starts verification for it: code row, e-mail, both cookies for 300 s |
| SignupRoute.DirectSignupEffects | src/app/api/v1/auth/signup/route.ts:113-127 | with two-factor off, 201 with the profile {id, email, name, role} of the new row; the table gains exactly that row; codes, mail and cookies untouched |
| VerifyRoute.SignedIn | src/app/api/v1/auth/verify/route.ts:90-118 | the session cookie for a week, neither verification cookie present, tables as given |
| VerifyRoute.Verify | src/app/api/v1/auth/verify/route.ts:21-126 | statuses 200/400/401/404/500; 200 only with a valid body, both cookies, a live token and an accepted code; then a profile and a session cookie, and the code table is what `verifyCode` leaves (the row used up); users and mail untouched |
| VerifyRoute.Post | src/app/api/v1/auth/verify/route.ts:21-126 | the response and the objects are those of `Verify` |
| VerifyRoute.MissingCookieWritesNothing | src/app/api/v1/auth/verify/route.ts:37-49 | a missing verification cookie gives 401 and nothing is written |
| VerifyRoute.WrongCodeKeepsSession | src/app/api/v1/auth/verify/route.ts:66-72 | a wrong code gives 400 and keeps cookies and row |
| VerifyRoute.CodeNotBoundToToken | src/app/api/v1/auth/verify/route.ts:52-90 | any valid code row with any live token signs in the token's user, consuming the row |
| VerifyRoute.ResetTokenAccepted | src/app/api/v1/auth/verify/route.ts:52-63 | a password-reset token and code pass the two-factor step |
| VerifyRoute.FailedTokenClearsCookies | src/app/api/v1/auth/verify/route.ts:52-63 | a token that fails verification gives 401 with both verification cookies cleared, nothing else written |
| VerifyRoute.UnknownUserConsumesCode | src/app/api/v1/auth/verify/route.ts:66-87 | an accepted code for a missing or inactive user gives 404, clears both cookies and still uses the row up |
| ResetPasswordRoute.ResetPassword | src/app/api/v1/auth/reset-password/route.ts:12-108 | statuses 200/400/401/404/500; 200 only with a valid body, both cookies, a live reset token and a code `verifyCode` accepts; then the code table is what `verifyCode` leaves (the row used up), the token user's hash is replaced and both cookies deleted |
| ResetPasswordRoute.Post | src/app/api/v1/auth/reset-password/route.ts:12-108 | the response and the objects are those of `ResetPassword` |
| ResetPasswordRoute.TwoFactorTokenRefused | src/app/api/v1/auth/reset-password/route.ts:43-59 | a two-factor token gives 401 and the cookies are cleared |
| ResetPasswordRoute.WrongCodeChangesNothing | src/app/api/v1/auth/reset-password/route.ts:62-68 | a wrong code gives 400 and changes nothing |
| ResetPasswordRoute.RefusedCodeKeepsPassword | src/app/api/v1/auth/reset-password/route.ts:61-68 | any refused code (unparsable id, unknown id, expired row, other code) gives 400 with no password changed and the cookies kept; an unparsable or unknown id changes nothing at all |
| ResetPasswordRoute.FailedTokenClearsCookies | src/app/api/v1/auth/reset-password/route.ts:43-59 | a token that fails verification gives 401 with both cookies cleared, nothing else written |
| ResetPasswordRoute.UnknownUserConsumesCode | src/app/api/v1/auth/reset-password/route.ts:62-83 | an accepted code for a missing or inactive user gives 404: no password changes, both cookies cleared, the row used up |
| SendCodeRoute.SendCode | src/app/api/v1/auth/send-code/route.ts:16-101 | statuses 200/400/500; the code is sent iff valid body, challenge, database and an active user; otherwise nothing is written |
| SendCodeRoute.Post | src/app/api/v1/auth/send-code/route.ts:16-101 | the response and the objects are those of `SendCode` |
| SendCodeRoute.SameStatusEitherWay | src/app/api/v1/auth/send-code/route.ts:43-56 | a known and an unknown e-mail both get 200; the unknown one writes nothing |
| SendCodeRoute.NewCodeSupersedesOld | src/app/api/v1/auth/send-code/route.ts:58-66 | a second request makes the first code unusable |
| SendCodeRoute.ActiveUserGetsResetCode | src/app/api/v1/auth/send-code/route.ts:58-93 | for an active user: a reset code row, the e-mail and both verification cookies, written by the helpers |
| LogoutRoute.Logout | src/app/api/v1/auth/logout/route.ts:5-21 | 200; the session cookie no longer present; the verification cookies and tables untouched |
| LogoutRoute.Post | src/app/api/v1/auth/logout/route.ts:5-21 | the response and the store are those of `Logout` |
| LogoutRoute.LogoutIdempotent | src/app/api/v1/auth/logout/route.ts:8 | logging out twice is logging out once |
| UserRoute.GetUser | src/app/api/v1/user/route.ts:5-30 | 401 without a cookie or with a token that fails; else 200 with the token's name and role |
| UserRoute.AnswerIsNameAndRole | src/app/api/v1/user/route.ts:15-22 | a live session token answers with its name and role |
| LegacyLoginRoute.Post | src/app/api/auth/login/route.ts:17-150 | the response and the objects are those of `Login` with the helper style |
| LegacyLoginRoute.MatchesCurrentLogin | src/app/api/auth/login/route.ts:95-128 | same response, tables and mail as the current login; cookie stores alike |
| LegacyVerifyRoute.Post | src/app/api/auth/verify/route.ts:15-115 | the response and the objects are those of `Verify` with the helper style |
| LegacyVerifyRoute.MatchesCurrentVerify | src/app/api/auth/verify/route.ts:88-96 | same response and tables as the current verify; the stores look the same |
| LegacyLogoutRoute.Post | src/app/api/auth/logout/route.ts:5-21 | the response and the store are those of `Logout` with the helper style |
| LegacyLogoutRoute.MatchesCurrentLogout | src/app/api/auth/logout/route.ts:8 | same response as the current logout; the stores look the same |
| UserContext.FirstWord | src/contexts/UserContext.tsx:30 | a prefix of the name, with no space, ending at the first space or the end |
| UserContext.ExtractFirstName | src/contexts/UserContext.tsx:28-31 | "Usuário" for an absent or empty name; else the first word |
| UserContext.GetFirstName | src/contexts/UserContext.tsx:118-121 | "Usuário" with no user or no name; else `ExtractFirstName` of the name |
| UserContext.FirstWordLongest | src/contexts/UserContext.tsx:30 | every space-free prefix of the name is a prefix of the first word |
| UserContext.LeadingSpaceGivesEmpty | src/contexts/UserContext.tsx:30 | a name starting with a space gives "" |
| UserContext.NoSpaceShownWhole | src/contexts/UserContext.tsx:30 | a name without spaces is shown whole |
| FlowProperties.TokenWindowWithinCodeWindow | src/lib/auth/jwt.ts:43-45 | while the verification token lives, the code saved with it has not expired |
| FlowProperties.FoundByEmailFoundById | src/app/api/v1/auth/verify/route.ts:75-78 | the user found by e-mail is the one found by its id |
| FlowProperties.SeenDecides | src/lib/auth/middleware.ts:30-32 | stores that look the same get the same gate decision, role check and profile answer |
| FlowProperties.LoginThenAuthorized | src/app/api/v1/auth/login/route.ts:125-155 | after a login without two-factor, the gate passes, the role check passes iff the user's role is listed, and the profile is the user's, for a week |
| FlowProperties.LogoutThenRedirected | src/app/api/v1/auth/logout/route.ts:8 | after logout a protected path is redirected and the profile request gets 401 |
| FlowProperties.StartedCookies | src/app/api/v1/auth/login/route.ts:80-116 | after starting, both cookies are present, the id names the saved row, the token carries the user and the type, and the code is accepted while the token lives |
| FlowProperties.VerifyAccepts | src/app/api/v1/auth/verify/route.ts:90-118 | with live cookies and the right code for an active user, the verify step signs in |
| FlowProperties.VerifyRefusesMissingRow | src/app/api/v1/auth/verify/route.ts:66-72 | with the row gone, the verify step gives 400 and writes nothing |
| FlowProperties.TwoFactorRoundTrip | src/app/api/v1/auth/verify/route.ts:66-118 | the code mailed at login, sent back in time, signs the user in; replaying it with the same cookies gives 400 |
| FlowProperties.ResetAccepts | src/app/api/v1/auth/reset-password/route.ts:86-100 | with live cookies, a reset token and the right code, the password is replaced |
| FlowProperties.ResetThenLogin | src/app/api/v1/auth/reset-password/route.ts:86-100 | after send-code and reset, a login succeeds iff the password matches the new hash |

## Left out

- bcrypt, the zod e-mail test and the Turnstile HTTP call are functions in the request context. The model takes their answers as given and does not model their algorithms.
- HMAC-SHA256 signing is modelled as a record of the claims and the secret, so a token verifies only under the secret it names. Forgery is not modelled.
- Resend delivery is reduced to the mail recorded in the outbox. `sendVerificationEmail`'s `false` on a Resend error is dropped, because no handler reads it. The development console log appears as a `ConsoleLog` mail.
- Database failures are modelled by one flag, `dbUp`. When it is false, the handler's first database call throws and the answer is 500. A failure in the middle of a handler, after a partial write, is not modelled.
- Concurrency and the atomicity of database statements are not modelled.
- Each handler reads the clock once. `setMinutes` is taken as exactly 300000 ms, with no daylight-saving edge case.
- A request body that is not JSON is the absent body, answered with 500. zod's handling of non-string field values is reduced to "not a string".
- String lengths are code points, not UTF-16 code units. `parseInt` is modelled for decimal text with an optional sign. Leading whitespace and `0x` prefixes are not modelled.
- A NaN id from `parseInt` is modelled as "no row", which is what the SQL query returns for it.
- The browser's expiry of cookies by `maxAge` is not modelled; each handler reads the store it is given. The framework's default cookie path and its split of request and response cookies are not modelled either.
- Authorize: the redirect carries the raw path, not its `encodeURIComponent` form.
- The middleware `matcher` regular expression is not modelled. Every pathname is taken to reach the gate.
- The logout handlers' `catch` branch (500) is left out, because nothing in their `try` can throw in the model.
- `hashPassword`'s salt rounds and `verifyPassword` are inside the `hash`/`passwordMatches` functions of the context.
- The client cookie helpers, React state and routing, `fetchUser`, `logout` and `clearUser` of the user context are not part of this model. Neither are the pages and forms, the collaborators endpoint, the seed script or the shared types.
