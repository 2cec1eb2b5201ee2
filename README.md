# exDock account layer — a Dafny model

This project models the account layer of the exDock e-commerce back end: the
value classes of `AccountClasses.kt` (the `Permission` enum and its string
decoder, `User`, `UserCreation`, `BackendPermissions` and the `FullUser`
record with its id check) and the codec and reply logic of
`AccountJdbcVerticle.kt` (the positional parameter tuples sent with each SQL
statement, the decoders that turn result rows into records, and, for each of
the thirteen event-bus handlers, the reply it sends and whether it sets the
`"accounts"` cache flag).

Files:

- `wrappers.dfy` — `Option` (Kotlin's nullable values) and `Result` (a failed `require`).
- `account_classes.dfy` — module `AccountClasses`: `Permission`, `FromString` (built on `Find`, Kotlin's `Iterable.find`), the records, `MakeFullUser`.
- `account_rows.dfy` — module `AccountRows`: statement parameters (`SqlValue`), rows (`Row`, a map from column name), the table columns and the placeholder lists of each statement, the tuple builders and the row decoders.
- `account_handlers.dfy` — module `AccountHandlers`: the handlers as pure functions from the statement outcome (`Failed` or `Done(rowCount, rows)`) to the reply and the cache-flag decision; the two-table transaction of deleteUser.
- `account_verticle.dfy` — module `AccountVerticle`: the verticle as a class whose write handlers send the reply and add `"accounts"` to the set of flagged cache domains.

What is proved, in the system's terms:

- `Permission.fromString` returns the constant whose identifier equals the string exactly (case-sensitive) and `NONE` for every other string; it inverts `name`; the lower-case labels given to the enum constructor (`"read"`, `"read-write"`, …) are not properties and all decode to `NONE`.
- A `FullUser` can be built exactly when both halves carry the same user id, and `makeFullUserObject` can never fail that check, because both halves read the single `user_id` column of one row.
- Each tuple position carries the value of the column whose placeholder stands at that position in the statement the tuple is sent with. The update layout of the backend-permissions tuple is the create layout rotated left by one (the user id moves to the end), and so is the statement's placeholder list. The user-creation tuple is the update tuple without its trailing id.
- A stored backend-permissions row reads back unchanged, provided the stored permission strings are the identifiers `fromString` matches; if they were the lower-case labels, every permission would read back as `NONE`. A stored user reads back with its password hashed.
- Per handler: the fail codes and messages, "get all" reads never fail on zero rows, single reads use the first row only, and the cache flag is set exactly when the reply is a success for updateUser and the three backend-permission writes. createUser sets the flag on every successful insert that reports a generated key, whatever the row count; when the driver reports no key, or a null one, the handler throws after the insert, without a reply and without the flag. deleteUser's transaction commits only when the permissions DELETE succeeds, since the transaction block returns that statement's future, so a failed permissions DELETE rolls back and replies 500. Beyond that the permissions DELETE's row count is never consulted: the success reply and the flag follow the users DELETE. Its transaction removes the user's rows from both tables or from neither.

Two behaviours the proofs bring out (both follow from the code as written):

- deleteUser registers its transaction failure handler before its completion handler. So a rolled-back transaction replies 500 first. The completion handler still runs, and it sets the `"accounts"` flag whenever the users DELETE itself reported a removed row (`AccountHandlers.DeleteUser`). This flag is spurious but harmless.
- A permissions row whose user no longer exists is deleted by deleteUser. Even so, the reply is 404 and the flag is not set (`AccountHandlers.DeleteUserEndToEnd`).

A failed createUser insert replies 400; every other failed statement replies 500.

## Model

| member | source | states |
|---|---|---|
| AccountClasses.Find | src/main/kotlin/com/ex_dock/ex_dock/database/account/AccountClasses.kt:35 | `find` returns the first element satisfying the predicate, and nothing exactly when no element does |
| AccountClasses.FromString | src/main/kotlin/com/ex_dock/ex_dock/database/account/AccountClasses.kt:34-36 | the result's identifier is the input, or the result is `NONE` and no constant has that identifier (total, with default) |
| AccountClasses.FromStringCharacterised | src/main/kotlin/com/ex_dock/ex_dock/database/account/AccountClasses.kt:33-36 | `fromString(s) == p` if and only if `s` is `p`'s identifier, or `p` is `NONE` and `s` is no identifier |
| AccountClasses.FromStringName | src/main/kotlin/com/ex_dock/ex_dock/database/account/AccountClasses.kt:27-36 | round trip: `fromString(p.name) == p` for every constant |
| AccountClasses.FromStringLabelsAreNone | src/main/kotlin/com/ex_dock/ex_dock/database/account/AccountClasses.kt:27-36 | every string that is not exactly an identifier (differently-cased names included) decodes to `NONE`, and the lower-case constructor labels are such strings |
| AccountClasses.NamesDistinct | src/main/kotlin/com/ex_dock/ex_dock/database/account/AccountClasses.kt:27-31 | two constants have the same identifier only if they are the same constant |
| AccountClasses.Values | src/main/kotlin/com/ex_dock/ex_dock/database/account/AccountClasses.kt:27-35 | `values()` holds four constants, none twice; `ValuesComplete` shows every constant is among them |
| AccountClasses.ValuesComplete | src/main/kotlin/com/ex_dock/ex_dock/database/account/AccountClasses.kt:27-35 | `values()` lists every constant |
| AccountClasses.BackendPermissions.With | src/main/kotlin/com/ex_dock/ex_dock/database/account/AccountClasses.kt:7-19 | setting one permission property changes that property only; `userId` (a `val`) and `apiKey` are unchanged |
| AccountClasses.BackendPermissions.WithApiKey | src/main/kotlin/com/ex_dock/ex_dock/database/account/AccountClasses.kt:18 | setting the nullable `apiKey` (a `var`) changes it only; `userId` and the nine permissions are unchanged |
| AccountClasses.MakeFullUser | src/main/kotlin/com/ex_dock/ex_dock/database/account/AccountClasses.kt:21-25 | construction succeeds if and only if the user's id equals the permissions' user id, and otherwise fails with an illegal-argument error |
| AccountRows.MakeUserTuple | src/main/kotlin/com/ex_dock/ex_dock/database/account/AccountJdbcVerticle.kt:437-441 | position i of the tuple is the value of the i-th placeholder column of `UPDATE users SET email, password WHERE user_id`, with the password hashed |
| AccountRows.MakeUserCreationTuple | src/main/kotlin/com/ex_dock/ex_dock/database/account/AccountJdbcVerticle.kt:444-448 | position i of the tuple is the value of the i-th column of `INSERT INTO users (email, password)`, with the password hashed, whatever user id the row later receives |
| AccountRows.UserCreationTupleIsPrefix | src/main/kotlin/com/ex_dock/ex_dock/database/account/AccountJdbcVerticle.kt:437-448 | the creation tuple is the user tuple of the same email and password without the trailing id |
| AccountRows.MakeUserObject | src/main/kotlin/com/ex_dock/ex_dock/database/account/AccountJdbcVerticle.kt:405-411 | each field of the user is read from its own column |
| AccountRows.StoredUserReadsBackHashed | src/main/kotlin/com/ex_dock/ex_dock/database/account/AccountJdbcVerticle.kt:405-448 | a user written through the tuples and read back by `makeUserObject` has the same id and email and the hashed password |
| AccountRows.MakeBackendPermissionsTuple | src/main/kotlin/com/ex_dock/ex_dock/database/account/AccountJdbcVerticle.kt:450-482 | eleven items in both layouts, one per placeholder of the statement it is sent with; which column each position binds, the create layout and the put rotation are stated by `PermissionsTupleBindsColumns`, `CreateTupleLayout` and `PutTupleIsRotation` |
| AccountRows.PermissionsTupleBindsColumns | src/main/kotlin/com/ex_dock/ex_dock/database/account/AccountJdbcVerticle.kt:450-482 | for both layouts, tuple position i holds the value of the column at placeholder i of the INSERT (create) or UPDATE (put) statement |
| AccountRows.CreateTupleLayout | src/main/kotlin/com/ex_dock/ex_dock/database/account/AccountJdbcVerticle.kt:465-478 | the create tuple is the user id, the nine converted permissions in declaration order, then the API key (11 items) |
| AccountRows.PutTupleIsRotation | src/main/kotlin/com/ex_dock/ex_dock/database/account/AccountJdbcVerticle.kt:450-482 | the put tuple is the create tuple rotated left by one; the two statements' placeholder lists are rotated the same way and hold the same columns |
| AccountRows.ApiKeyAt | src/main/kotlin/com/ex_dock/ex_dock/database/account/AccountJdbcVerticle.kt:425 | the API key is read from its column, SQL null becoming a null key |
| AccountRows.MakeBackendPermissionsObject | src/main/kotlin/com/ex_dock/ex_dock/database/account/AccountJdbcVerticle.kt:413-427 | the user id and the API key are read from their own columns |
| AccountRows.DecodesOwnColumn | src/main/kotlin/com/ex_dock/ex_dock/database/account/AccountJdbcVerticle.kt:413-427 | each of the nine permissions is `fromString` of its own column |
| AccountRows.StoredPermissionsRoundTrip | src/main/kotlin/com/ex_dock/ex_dock/database/account/AccountJdbcVerticle.kt:413-482 | a record stored with identifier strings reads back equal to itself |
| AccountRows.StoredLabelsReadBackAsNone | src/main/kotlin/com/ex_dock/ex_dock/database/account/AccountJdbcVerticle.kt:413-427 | a record stored with the lower-case labels reads back with every permission `NONE` |
| AccountRows.MakeFullUserObject | src/main/kotlin/com/ex_dock/ex_dock/database/account/AccountJdbcVerticle.kt:429-434 | decoding a joined row never violates the `FullUser` id check; both halves come from the same row |
| AccountHandlers.GetAllUsers | src/main/kotlin/com/ex_dock/ex_dock/database/account/AccountJdbcVerticle.kt:67-87 | failure: 500 `failed`; otherwise every row decoded in order, an empty list for no rows; flag never set |
| AccountHandlers.GetUserById | src/main/kotlin/com/ex_dock/ex_dock/database/account/AccountJdbcVerticle.kt:89-110 | failure: 500; no rows: 404 `NO_USER`; otherwise the first row only; flag never set |
| AccountHandlers.CreateUser | src/main/kotlin/com/ex_dock/ex_dock/database/account/AccountJdbcVerticle.kt:112-138 | failure: 400 and no flag; a successful insert with a generated key sets the flag without a row-count check and replies that id with the request's email and unhashed password; without a key (null) no reply and no flag |
| AccountHandlers.UpdateUser | src/main/kotlin/com/ex_dock/ex_dock/database/account/AccountJdbcVerticle.kt:140-162 | flag set if and only if the reply succeeds, if and only if rows were changed; 500 on failure, 404 `NO_USER` on zero rows; replies the request |
| AccountHandlers.DeleteUser | src/main/kotlin/com/ex_dock/ex_dock/database/account/AccountJdbcVerticle.kt:164-193 | success if and only if committed and the users DELETE removed rows; success implies the flag; the flag follows the users DELETE alone; 500 on rollback, on a failed users DELETE and on a failed permissions DELETE (which rolls back), 404 on zero rows |
| AccountHandlers.GetAllBackendPermissions | src/main/kotlin/com/ex_dock/ex_dock/database/account/AccountJdbcVerticle.kt:195-215 | failure: 500; otherwise every row decoded in order, an empty list for no rows; flag never set |
| AccountHandlers.GetBackendPermissionsByUserId | src/main/kotlin/com/ex_dock/ex_dock/database/account/AccountJdbcVerticle.kt:217-239 | failure: 500; no rows: 404 `NO_BACKEND_PERMISSION`; otherwise the first row only; flag never set |
| AccountHandlers.CreateBackendPermissions | src/main/kotlin/com/ex_dock/ex_dock/database/account/AccountJdbcVerticle.kt:241-267 | flag set if and only if the reply succeeds, if and only if rows were inserted; 500 on failure, 400 on zero rows; replies the request |
| AccountHandlers.UpdateBackendPermissions | src/main/kotlin/com/ex_dock/ex_dock/database/account/AccountJdbcVerticle.kt:269-297 | flag set if and only if the reply succeeds, if and only if rows were changed; 500 on failure, 400 on zero rows; replies the request |
| AccountHandlers.DeleteBackendPermissions | src/main/kotlin/com/ex_dock/ex_dock/database/account/AccountJdbcVerticle.kt:299-321 | flag set if and only if the reply succeeds, if and only if rows were deleted; 500 on failure, 400 on zero rows |
| AccountHandlers.GetAllFullUser | src/main/kotlin/com/ex_dock/ex_dock/database/account/AccountJdbcVerticle.kt:323-346 | failure: 500; otherwise every joined row decoded in order, each satisfying the id invariant, an empty list for no rows; flag never set |
| AccountHandlers.FirstFullUser | src/main/kotlin/com/ex_dock/ex_dock/database/account/AccountJdbcVerticle.kt:351-403 | getFullUserByEmail and getFullUserByUserId: failure 500; no rows 404 `NO_USER`; otherwise the first row only, satisfying the id invariant; flag never set |
| AccountHandlers.CommitDeleteUser | src/main/kotlin/com/ex_dock/ex_dock/database/account/AccountJdbcVerticle.kt:168-173 | the two DELETEs remove the user's key from both tables and nothing else; each row count is positive if and only if the key was present |
| AccountHandlers.DeleteUserTransaction | src/main/kotlin/com/ex_dock/ex_dock/database/account/AccountJdbcVerticle.kt:170-177 | a rollback leaves both tables as they were; a commit leaves the user in neither; every other user's rows are unchanged either way |
| AccountHandlers.DeleteUserAtomic | src/main/kotlin/com/ex_dock/ex_dock/database/account/AccountJdbcVerticle.kt:170-177 | either both of the user's rows are gone or both tables are unchanged, and every other user's rows are kept |
| AccountHandlers.DeleteUserEndToEnd | src/main/kotlin/com/ex_dock/ex_dock/database/account/AccountJdbcVerticle.kt:164-192 | a committed deleteUser succeeds and flags if and only if the user existed; an orphan permissions row is deleted without a flag and with a 404 |
| AccountHandlers.DeleteUserIgnoresPermissionsDelete | src/main/kotlin/com/ex_dock/ex_dock/database/account/AccountJdbcVerticle.kt:170-191 | for a fixed transaction end and users DELETE result, the reply and the flag are the same whatever the permissions DELETE reported, so its row count is never consulted |
| AccountVerticle.AccountJdbcVerticle.Complete | src/main/kotlin/com/ex_dock/ex_dock/database/account/AccountJdbcVerticle.kt:134-135 | sends the handler's reply and adds `"accounts"` to the flagged domains exactly when the handler calls `setCacheFlag` |
| AccountVerticle.AccountJdbcVerticle.CreateUser | src/main/kotlin/com/ex_dock/ex_dock/database/account/AccountJdbcVerticle.kt:112-138 | the flagged domains gain `"accounts"` exactly when the insert succeeded and reported a generated key |
| AccountVerticle.AccountJdbcVerticle.UpdateUser | src/main/kotlin/com/ex_dock/ex_dock/database/account/AccountJdbcVerticle.kt:140-162 | a success reply leaves `"accounts"` flagged; a failure leaves the flags unchanged |
| AccountVerticle.AccountJdbcVerticle.DeleteUser | src/main/kotlin/com/ex_dock/ex_dock/database/account/AccountJdbcVerticle.kt:164-193 | a success reply leaves `"accounts"` flagged; a failed permissions DELETE replies 500; the flags change exactly when the users DELETE removed rows |
| AccountVerticle.AccountJdbcVerticle.CreateBackendPermissions | src/main/kotlin/com/ex_dock/ex_dock/database/account/AccountJdbcVerticle.kt:241-267 | a success reply leaves `"accounts"` flagged; a failure leaves the flags unchanged |
| AccountVerticle.AccountJdbcVerticle.UpdateBackendPermissions | src/main/kotlin/com/ex_dock/ex_dock/database/account/AccountJdbcVerticle.kt:269-297 | a success reply leaves `"accounts"` flagged; a failure leaves the flags unchanged |
| AccountVerticle.AccountJdbcVerticle.DeleteBackendPermissions | src/main/kotlin/com/ex_dock/ex_dock/database/account/AccountJdbcVerticle.kt:299-321 | a success reply leaves `"accounts"` flagged; a failure leaves the flags unchanged |

## Left out

- SQL execution: the outcome of each statement (failure, row count, returned rows) is a parameter; the queries' WHERE and JOIN conditions are not evaluated, except the two DELETEs of deleteUser over two abstract tables.
- `hash()` and `Permission.convertToString()` are defined outside the modelled files; they are function parameters, and the round trip of stored permissions is proved under the hypothesis that `fromString` inverts `convertToString`.
- `setCacheFlag` is defined outside the modelled files; its effect is adding `"accounts"` to a set of flagged domains, and clearing flags is not modelled.
- The generated key of createUser is a parameter (`generatedId`), the first column of the generated-keys row, or none when that row or column is null; the exception then thrown is modelled as no reply and no flag.
- `start()`, the `lateinit` `client` and `eventBus` fields, the consumer registration, `DeliveryOptions`, the event-bus codecs and `println` logging are I/O plumbing.
- Null columns (for example from the LEFT JOIN of getFullUserByUserId) reach non-null Kotlin types and throw; the decoders require non-null columns instead.
- Kotlin `Int` is 32-bit; user ids and row counts are unbounded integers here, since nothing in the modelled code does arithmetic on them.
- `FullUser` and `User` have `var` properties; a `FullUser` can be mutated after its `init` check, which the immutable datatypes here do not capture.
- Of deleteUser's callbacks only the first reply and the flag are modelled; a second reply after a failure is ignored by the event bus, and the exception thrown when `userRowsFuture` was never assigned is modelled as "no flag".
- `ProductClasses.kt` (declarations only), the connection pool configuration, the HTTP server, router and launcher, the service data and the cache load test are not part of this model.
