# Users: authorization core of the unterstrich API

This project is a Dafny model of the user endpoints of the `users` package of unterstrich, a marketplace web API. It covers sign-up (`CreateUser`), reading one user (`GetUser`), reading the caller (`GetMe`), self-deletion (`DeleteUser`) and profile update (`UpdateUser`). Each handler is reduced to its ordered chain of checks and its single write to the users table. The handler returns one of the outcomes BadRequest, NotFound, Forbidden, InternalError or Ok, plus the serialised user where it writes one.

Layout:

- `user_model.dfy` (`UserModel`) holds the `User` row, the `CreationUser` sign-up body and the JSON view `UserJson`. `Password` and `Admin` are tagged `json:"-"`, so the view has no member for them. `ToJson` serialises a user. `FromJson` binds a body, and the hidden fields keep their zero values.
- `persistence.dfy` (`Persistence`) models the users table as a value: rows keyed by auto-increment id, plus the next id. Lookup by id returns found/absent.
- `identity.dfy` (`Identity`) resolves the acting principal. This is the stored user whose username equals the session claim, and among several matches the one with the smallest id, which is what `First` returns. When no user matches, the handlers compare against the zero-valued user's id, 0.
- `policy.dfy` (`Policy`) holds the escalation guard and the owner guard.
- `handlers.dfy` (`Handlers`) gives each handler as a function from the table and the request to the reply and the new table. The security promises are stated in these functions' contracts.
- `user_store.dfy` (`UserStore`) has the `Store` class. It holds the table in fields, with one method per handler written as the source's chain of early returns. Each method is proved equal to its handler function.
- `traces.dfy` (`Traces`) serves sequences of requests and proves what they can do to the privilege flags.
- `findings.dfy` (`Findings`) exhibits the two defects listed under Findings.

Inputs outside the model are parameters:

- The JWT claim is a `claim: string`.
- The parsed path id is an `Option<int>`, with `None` for a non-numeric id.
- The request body is an `Option`, with `None` when JSON decoding fails.
- bcrypt is a function `string -> Option<string>` that may fail.

The model follows the code where it departs from the policy the package evidently aims at:

- Sign-up has no uniqueness check on username or email.
- The update handler checks privilege flags against the row at the path id. It saves at the body's id.
- Deletion is self-only.
- A missing principal is not a separate outcome. It yields Forbidden through the id-0 comparison.

## Model

| member | source | states |
|---|---|---|
| UserModel.ToJson | users/users.go:33-47 | the serialised user holds every field except the password and the admin flag (tagged `json:"-"` at :36 and :42): binding it back gives the user with only those two zeroed |
| UserModel.FromJson | users/users.go:210-214 | a bound body has password "" and no admin flag, and its id and Staff flag are the body's |
| UserModel.CreationBindable | users/users.go:50-56 | a sign-up body binds only when it decoded, and an empty email, password or username makes it fail the `required` rule |
| UserModel.UserBindable | users/users.go:35-39 | an update body binds only when it decoded, and an empty email or username makes it fail the `required` rule |
| UserModel.ViewHidesSecrets | users/users.go:36-42 | the serialised user is the same whatever the password and the admin flag are |
| UserModel.ViewDeterminesPublicFields | users/users.go:33-47 | two users serialise alike exactly when they differ at most in password and admin flag |
| UserModel.JsonRoundTrip | users/users.go:33-47 | binding a serialised user and serialising it again gives the same JSON |
| UserModel.BindLosesSecrets | users/users.go:36-42 | serialising then binding a user gives the user with password "" and admin false |
| UserModel.BoundBodyHasNoSecrets | users/users.go:210-214 | a body bound onto User never carries a password or the admin flag |
| Persistence.Lookup | users/users.go:112-113 | lookup by id is found exactly when the id is a stored key, and then yields that row |
| Persistence.LookupOrZero | users/users.go:221-222 | the row at an id or, when absent, the zero user (id 0, no Staff, no Admin) |
| Identity.FirstByUsername | users/users.go:187-189 | the smallest key whose row has the given username, or absent when no row below the bound has it |
| Identity.Principal | users/users.go:229-231 | the stored user named by the claim with no earlier row of that name; absent exactly when no row has that username |
| Identity.PrincipalId | users/users.go:187-191 | nonzero exactly when a principal exists, and then the principal's id: the smallest stored key whose username is the claim |
| Policy.Escalates | users/users.go:224-227 | refuses exactly when saving the body would grant Staff or Admin that the compared row lacks |
| Policy.IsForeign | users/users.go:191-194 | passes only when the target id equals the principal's id; a missing principal (id 0) never passes for a stored target |
| Handlers.NewUser | users/users.go:140-145 | the built row takes email, username, password, artist, curator from the body and has id 0 and no Staff or Admin |
| Handlers.CreateUser | users/users.go:133-168 | BadRequest exactly on an unbindable body; never Forbidden (the admin branch is dead); InternalError exactly when hashing fails; any failure leaves the table unchanged; Ok adds one row under the fresh next id with the hashed password and no privilege flags, leaves every existing row unchanged, and returns its view |
| Handlers.GetUser | users/users.go:104-121 | BadRequest exactly for a non-numeric id; NotFound exactly when the id is not stored; otherwise Ok with the stored row's view |
| Handlers.GetMe | users/users.go:124-130 | always Ok, with the principal's view, or the zero user's view when the claim names no user |
| Handlers.DeleteUser | users/users.go:171-199 | BadRequest for a non-numeric id; NotFound for a missing target, before the principal is consulted; Forbidden exactly when the target is not the principal; every refusal leaves the table unchanged; Ok removes exactly the principal's own row |
| Handlers.UpdateUser | users/users.go:202-241 | never InternalError; BadRequest exactly for a bad id or body; NotFound exactly for a body without id; Forbidden exactly when the body grants a flag the path-id row lacks (whoever the caller is) or the body id is not the principal's; Ok exactly when both guards pass; refusals leave the table unchanged; Ok replaces only the row at the body id by the bound body and returns it |
| Handlers.UpdateUserCorrected | users/users.go:202-241 | never InternalError; BadRequest and NotFound exactly as UpdateUser; Forbidden exactly when the body grants a flag the row at the BODY id lacks or the body id is not the principal's; Ok exactly when both guards pass; refusals leave the table unchanged; Ok replaces only the principal's row by the bound body with that row's password hash and admin flag kept, so it grants no flag the row lacked |
| Handlers.CreateStoresNoPlaintext | users/users.go:156-165 | when the hasher never returns its input, the stored password differs from the submitted one |
| UserStore.Store.constructor | users/users.go:93 | an empty users table whose first id is 1 |
| UserStore.Store.CreateUser | users/users.go:133-168 | the method's reply and new table are those of Handlers.CreateUser on the old table |
| UserStore.Store.GetUser | users/users.go:104-121 | the reply is that of Handlers.GetUser |
| UserStore.Store.GetMe | users/users.go:124-130 | the reply is that of Handlers.GetMe |
| UserStore.Store.DeleteUser | users/users.go:171-199 | the reply and new table are those of Handlers.DeleteUser on the old table |
| UserStore.Store.UpdateUser | users/users.go:202-241 | the reply and new table are those of Handlers.UpdateUser on the old table |
| Traces.Serve | users/users.go:76-91 | serving any request keeps the table well formed; reads leave it unchanged |
| Traces.Run | users/users.go:76-91 | serving a request sequence keeps the table well formed |
| Traces.ServeCorrectedGrantsNothing | users/users.go:133-241 | one request of the corrected build gives no row a flag it lacked |
| Traces.RunCorrectedGrantsNothing | users/users.go:224-236 | over any request sequence of the corrected build, every Staff or Admin row already existed with that flag |
| Traces.ServeAsWrittenKeepsFlags | users/users.go:224-227 | one request as written makes no row admin, and adds no staff row to a table without staff |
| Traces.RunAsWrittenKeepsFlags | users/users.go:224-227 | over any request sequence as written, admins never grow, and a table without staff never gets one |
| Findings.UpdateAsWrittenSelfGrantsStaff | users/users.go:221-238 | a concrete table and request where a non-staff principal makes itself staff |
| Findings.UpdateCorrectedRefusesSelfGrant | users/users.go:221-238 | the corrected handler refuses that request and leaves the table unchanged |
| Findings.UpdateAsWrittenErasesSecrets | users/users.go:238 | after any successful update the saved row has password "" and no admin flag |
| Findings.UpdateOwnNameErasesHash | users/users.go:238 | renaming oneself erases the stored hash as written; the corrected handler accepts the rename and stores the row with only the first name changed |

## Left out

- Route registration and table migration in `Initialize` (users/users.go:76-94) are framework wiring. The request-sequence model in `Traces` stands in for the routes.
- `GetUsers` (users/users.go:97-101) is an unfiltered list with no checks.
- The `Artwork`, `Address` and `Social` records and the `Address`, `Social` and `Artworks` fields of `User` are not modelled. No handler here acts on them.
- `model.Base` is not part of this model. Of its fields only the numeric id is kept. Timestamps and any soft-delete column are not modelled, so a deletion simply removes the row.
- bcrypt is a parameter that may fail. Salt, cost and constant-time comparison are not modelled. The no-plaintext promise is proved for any hasher that never returns its input.
- JWT claim extraction, `strconv.Atoi`, HTTP status codes and message strings (including the `string(user.ID)` conversion) are transport formatting. The model takes the parsed values as inputs and returns an outcome.
- The nil-pointer defects (`var user *User` handed to `First` and `ShouldBindJSON`, the non-pointer `other`) are not reproduced. Taken literally, they make every `GetUser` and `DeleteUser` answer NotFound and every `UpdateUser` answer BadRequest. The model follows the evident found/absent branches instead, and "as written" in member names means this code with real pointers. A missing `other` behaves as the zero user, since the code has no NotFound check there.
- gin's binding is reduced to its `required` rule on strings (an empty string is refused) plus a decode that may fail.
- Concurrency between requests is left to the database and is not modelled. Requests are served one after another.

## Findings

| source | as written | input that shows it | evidently intended | confidence | as-written member | corrected member |
|---|---|---|---|---|---|---|
| users/users.go:221-238 | once the bind at :210-211 and the load at :221-222 are made through real pointers (as written, the nil `*User` makes every bind fail with BadRequest first), the escalation guard compares the body's flags with the row at the path id, but the save goes to the row at the body's id | with those pointers fixed: principal "amy" (id 1, not staff), staff user id 2; PUT /users/2 with body id 1 and is_staff true is accepted and amy becomes staff | compare the body with the row it overwrites, so no principal can grant itself Staff | high, not executed | Findings.UpdateAsWrittenSelfGrantsStaff | Handlers.UpdateUserCorrected |
| users/users.go:238 | once the bind at :210-211 is made through a real pointer (as written, the nil `*User` makes every bind fail with BadRequest first), the bound body, which cannot carry `Password` or `Admin` (`json:"-"`), is saved over the whole row | with that pointer fixed: amy (id 1, password hash stored) updates her own first name; the stored password becomes "" | keep the stored password hash and admin flag when saving a profile update | medium, not executed | Findings.UpdateAsWrittenErasesSecrets | Handlers.UpdateUserCorrected |
