# Saudi permit applications — a Dafny model

This project models the core of a small permit-application system. Its backend is a NestJS
service: users register and log in, a USER files permit applications, and an ADMIN
approves or rejects them. Its frontend is Nuxt: a session store and a form schema. The model
covers these parts:

- **Domain** (`domain.dfy`): the application row, the caller identity, the `Role` and
  `ApplicationStatus` enums, and a JSON value type for request bodies and error details.
- **ResponseHelper** (`response_helper.dfy`): the success, error and paginated response envelopes.
- **ExceptionFilter** (`exception_filter.dfy`): the global exception filter. It classifies a
  thrown value and turns it into an error envelope. It also builds NestJS's built-in HTTP
  exceptions.
- **AuthorizedDecorator** and **AuthGuard** (`authorized_decorator.dfy`, `auth_guard.dfy`):
  - the `@Authorized` metadata and the global guard;
  - the guard is proved equal to a reference decision `Decide` over a per-route requirement
    (public, authenticated only, or a set of roles).
- **PermitDto** (`permit_dto.dfy`): the class-validator rules on the create, patch and status bodies.
- **PermitService** (`permit_service.dfy`):
  - `PermitApplicationService` is a class whose table is a `map` field;
  - its methods create, list, read, patch, change the status of and delete rows, with the
    ownership test.
- **AuthService** (`auth_service.dfy`): registration, login and profile lookup over a user
  table keyed by email.
- **Controllers** (`controllers.dfy`):
  - the route table of `@Authorized` decorators, proved equal to the intended access policy;
  - what each handler passes to its service;
  - the handlers as written, which pass the wrong argument (see Findings).
- **AuthStore** (`auth_store.dfy`):
  - the frontend session store: `token`, `user`, `isLoading` and `error`, plus the two
    `localStorage` entries;
  - every action is a method that states the whole new state.
- **ApplicationSchema** (`application_schema.dfy`): the zod schema of the application form,
  issue by issue.

Some things come from outside the core and are given as inputs:

- Database-generated values are method parameters: ids, timestamps, and the default status,
  role and `isActive`.
- bcrypt's hash and compare, the JWT signer, `JSON.stringify`/`JSON.parse` and the email
  format test are function-valued parameters or constants fixed when an object is built.
- Every awaited HTTP call of the frontend is an input to the action that awaits it.

## Model

| member | source | states |
|---|---|---|
| Domain.ParseStatus | backend/src/modules/permit-application/dto/update-permit-application.dto.ts:49-51 | a string is accepted exactly when it is one of the three enum values, and it reads back as that value |
| Domain.OrUndefined | backend/src/modules/auth/auth.service.ts:56 | JavaScript's or-with-undefined on an optional string, used for the returned name and for the owner filter of `findAll` (permit-application.service.ts:50): the result is present iff the input is a non-empty string, and then it is the input |
| Domain.StatusNameRoundTrip | backend/src/modules/permit-application/dto/update-permit-application.dto.ts:49-51 | every status survives the trip through its string value |
| ResponseHelper.Success | backend/src/common/dto/responceHelper.ts:107-120 | a success envelope (success true, no error) carrying the data and meta; the message defaults to "Operation completed successfully" and the status to 200 |
| ResponseHelper.Error | backend/src/common/dto/responceHelper.ts:122-140 | an error envelope (success false, data null) whose error object is always present with the given code and details; the status defaults to 500 |
| ResponseHelper.Paginated | backend/src/common/dto/responceHelper.ts:142-157 | a success envelope whose meta is exactly `{ pagination }`, from which a client reads back the same pagination; message and status default |
| ExceptionFilter.GetExceptionType | backend/src/common/exceptions/global-exception.filter.ts:54-67 | HTTP exceptions first; a Prisma error class is recognised only on an object with a `code` property; every other value is unknown (each case as an if-and-only-if) |
| ExceptionFilter.HandleHttpException | backend/src/common/exceptions/global-exception.filter.ts:69-88 | the status is kept and the class name becomes the code; the message is the response object's message when truthy, else the exception's; the details are the response object, or null for a string response |
| ExceptionFilter.HandlePrismaValidationError | backend/src/common/exceptions/global-exception.filter.ts:90-99 | 400 with PRISMA_VALIDATION_ERROR and the error's message as details |
| ExceptionFilter.HandleUnknownError | backend/src/common/exceptions/global-exception.filter.ts:101-109 | 500 with INTERNAL_ERROR; details are present exactly when NODE_ENV is "development", and then they are the thrown value as `JSON.stringify` writes it: a plain value as it is, an `Error` as the object of its enumerable own properties (name, message and stack are not among them) |
| ExceptionFilter.TargetFieldName | backend/src/common/exceptions/global-exception.filter.ts:115-124 | the field named in a unique-constraint message is never empty ("field" when the target gives none) |
| ExceptionFilter.HandlePrismaError | backend/src/common/exceptions/global-exception.filter.ts:111-158 | error code decides the reply: P2002 → 409 "<field> already exists"; P2025 → 404; P2003 and P2014 → 400; any other code → 500 DATABASE_ERROR; meta always passes through as details |
| ExceptionFilter.Catch | backend/src/common/exceptions/global-exception.filter.ts:17-52 | every thrown value gets an error envelope whose status code is the HTTP status sent, built by the handler its exception type selects |
| ExceptionFilter.BuiltInExceptionReply | backend/src/common/exceptions/global-exception.filter.ts:69-88 | a NestJS built-in exception with a non-empty message reaches the client with its own status, its class name as code and its message unchanged |
| ExceptionFilter.ValidationErrorWithoutCodeIsInternal | backend/src/common/exceptions/global-exception.filter.ts:59-63 | a Prisma validation error without a `code` property is answered as an unknown 500 error |
| ExceptionFilter.PlainErrorDetailsAreEmpty | backend/src/common/exceptions/global-exception.filter.ts:101-109 | in development a thrown `Error` with no enumerable own properties reaches the client as 500 with empty details `{}`: its name and message are not sent |
| AuthorizedDecorator.Authorized | backend/src/common/decorators/authorized.decorator.ts:6-16 | the authorization flag is always set; the role list holds exactly the roles the argument names (none, the single role, or the array as given) |
| AuthGuard.CanActivate | backend/src/common/guards/auth.guard.ts:19-47 | allow exactly when the route is unprotected or the caller is known and its role is admitted; 401 exactly when a protected route has no caller (with the two messages); 403 exactly when the caller's role is not listed |
| AuthGuard.GuardMatchesDecide | backend/src/common/guards/auth.guard.ts:19-47 | for every decorator and JWT outcome, the guard's decision is the reference decision for the requirement the decorator declares |
| AuthGuard.EmptyRoleSetIsAuthenticatedOnly | backend/src/common/guards/auth.guard.ts:41 | an empty role list is the same requirement as "authenticated only" |
| AuthGuard.AuthorizedWithoutRolesMeansAuthenticated | backend/src/common/guards/auth.guard.ts:25-41 | `@Authorized()` with no roles admits exactly the authenticated callers |
| AuthGuard.UndecoratedRouteIsPublic | backend/src/common/guards/auth.guard.ts:25 | a handler without the decorator is open whatever the JWT check says |
| AuthGuard.ListedRoleDecides | backend/src/common/guards/auth.guard.ts:41-44 | on a role-restricted route a known caller is allowed iff its role is listed, and otherwise gets 403 "Insufficient permissions" |
| Controllers.Decorator | backend/src/modules/permit-application/permit-application.controller.ts:28-110 | the `@Authorized` table of lines 28, 42, 53, 65, 90 and 110 and of auth.controller.ts:26: only register and login are undecorated; every decorator sets the flag with a non-empty role list; USER is listed on every decorated route but the status change, ADMIN on every one but create |
| Controllers.RouteTableMatchesPolicy | backend/src/modules/permit-application/permit-application.controller.ts:28-110 | the decorators and the guard give every route the intended decision: auth routes public, profile for any caller, create for USER, status for ADMIN, the rest for USER or ADMIN |
| Controllers.AuthRoutesArePublic | backend/src/modules/auth/auth.controller.ts:14-24 | register and login are open to anyone |
| Controllers.ProtectedRoutesNeedIdentity | backend/src/common/guards/auth.guard.ts:27-34 | every other route answers 401, never 403, to a caller without a verified identity |
| Controllers.CreateIsUserOnly | backend/src/modules/permit-application/permit-application.controller.ts:28 | creating an application is allowed iff the caller is a USER; an ADMIN gets 403 |
| Controllers.StatusChangeIsAdminOnly | backend/src/modules/permit-application/permit-application.controller.ts:90 | changing the status is allowed iff the caller is an ADMIN |
| Controllers.SharedRoutesAdmitBothRoles | backend/src/modules/permit-application/permit-application.controller.ts:42-65 | profile, list, get, update and delete admit every authenticated caller |
| Controllers.Dispatch | backend/src/modules/permit-application/permit-application.controller.ts:32-124 | the corrected half of the finding below: each handler calls its service with the body and path id, create and profile pass the caller's id, and list, get, update and delete pass the caller's id and role. The source as written passes `user` in those four calls (lines 50, 62, 86 and 123), which `Controllers.CallerArgsAsWritten` models |
| Controllers.DispatchedCallerDecidesByOwnership | backend/src/modules/permit-application/permit-application.service.ts:78-82 | with id and role passed on, a caller passes the ownership test iff it is ADMIN or owns the row |
| Controllers.DeniedOnValuesAgrees | backend/src/modules/permit-application/permit-application.service.ts:78-82 | on the values the service's signature admits, the JavaScript strict-inequality test is the ownership test `Denied` |
| Controllers.CallerArgsAsWritten | backend/src/modules/permit-application/permit-application.controller.ts:61-62 | as written, the user object lands in the `userId` slot and the role slot is undefined |
| Controllers.AsWrittenEveryoneIsDenied | backend/src/modules/permit-application/permit-application.controller.ts:61-62 | as written, every caller (owner and ADMIN included) is denied every existing row |
| Controllers.AsWrittenListingIgnoresAdmin | backend/src/modules/permit-application/permit-application.controller.ts:49-50 | as written, an ADMIN's listing never takes the ADMIN branch; with the role passed on it would |
| Controllers.OrUndefinedOnValues | backend/src/modules/permit-application/permit-application.service.ts:49-50 | the or-with-undefined of the owner filter on JavaScript values: undefined exactly for undefined, null and the empty string, otherwise the value itself |
| Controllers.OrUndefinedOnValuesAgrees | backend/src/modules/permit-application/permit-application.service.ts:49-50 | on the ids the service's signature admits, the JavaScript filter value is `Domain.OrUndefined` |
| Controllers.AsWrittenListingFiltersByObject | backend/src/modules/permit-application/permit-application.controller.ts:49-50 | as written, the owner filter's value is the user object, not an id, for a USER and an ADMIN alike; with the id passed on it is the id |
| PermitDto.ValidateCreate | backend/src/modules/permit-application/dto/create-permit-application.dto.ts:4-31 | a body is accepted iff all three members are non-empty strings and the email passes the email test; the DTO holds exactly those strings |
| PermitDto.ValidateUpdate | backend/src/modules/permit-application/dto/update-permit-application.dto.ts:11-41 | a body is accepted iff each member is absent, `null` (which `@IsOptional` lets through) or a string (the email an email); each patch member is omitted, null or given exactly as the body member is, with the same value |
| PermitDto.NullPatchMemberPasses | backend/src/modules/permit-application/dto/update-permit-application.dto.ts:18-19 | a `null` member passes validation and reaches the patch as null |
| PermitDto.ValidateStatus | backend/src/modules/permit-application/dto/update-permit-application.dto.ts:43-52 | a body is accepted iff `application_status` is one of the enum strings, and the DTO holds that status |
| PermitDto.CreateIgnoresOtherMembers | backend/src/modules/permit-application/dto/create-permit-application.dto.ts:4-31 | an undeclared member (a status, an owner) never changes the create DTO |
| PermitDto.UpdateIgnoresOtherMembers | backend/src/modules/permit-application/dto/update-permit-application.dto.ts:11-41 | assuming the validation pipe strips undeclared members, an undeclared member, `application_status` included, never changes the patch |
| PermitDto.StatusBodyRoundTrip | backend/src/modules/permit-application/dto/update-permit-application.dto.ts:43-52 | every status sent as its enum string validates to itself |
| PermitService.InsertNewestFirst | backend/src/modules/permit-application/permit-application.service.ts:53-55 | inserting a row keeps the list newest-first and free of duplicate ids, grows it by one and adds exactly that row |
| PermitService.ApplyPatch | backend/src/modules/permit-application/permit-application.service.ts:112-116 | no new row iff the patch sends null for a column; otherwise a given member replaces its column, an omitted one leaves it, and id, owner, status and submission time never change |
| PermitService.PermitApplicationService.Create | backend/src/modules/permit-application/permit-application.service.ts:23-41 | adds exactly one row holding the three input fields, owned by the caller, with the store's default status; 201 with that row |
| PermitService.PermitApplicationService.FindAll | backend/src/modules/permit-application/permit-application.service.ts:43-62 | the listing holds exactly the stored rows the role and owner filter keep, newest first, each once |
| PermitService.PermitApplicationService.FindOne | backend/src/modules/permit-application/permit-application.service.ts:64-88 | a missing id is 404 whoever asks; an existing row is 403 to a caller the ownership test denies and returned otherwise |
| PermitService.PermitApplicationService.Update | backend/src/modules/permit-application/permit-application.service.ts:90-122 | 404, then 403, then the database's refusal of a null member, each leaving the table unchanged; otherwise only the target row changes, by the patch |
| PermitService.PermitApplicationService.UpdateStatus | backend/src/modules/permit-application/permit-application.service.ts:124-149 | 404 on a missing id; otherwise only the target row's status changes, with no ownership test |
| PermitService.PermitApplicationService.Remove | backend/src/modules/permit-application/permit-application.service.ts:151-180 | 404, then 403, each leaving the table unchanged; otherwise exactly the target row is removed and the data is null |
| PermitService.Denied | backend/src/modules/permit-application/permit-application.service.ts:78-82 | the ownership test, repeated at lines 106-110 and 166-170: ADMIN always passes; anyone else is refused iff the row has no owner or the owner is not the caller's id |
| PermitService.AdminIsNeverDenied | backend/src/modules/permit-application/permit-application.service.ts:78-82 | ADMIN passes the ownership test on every row |
| PermitService.NonAdminNeedsOwnership | backend/src/modules/permit-application/permit-application.service.ts:78-82 | a non-ADMIN passes iff the row has an owner and it is the caller |
| PermitService.UnownedRowIsAdminOnly | backend/src/modules/permit-application/permit-application.service.ts:78-82 | a row with a null owner is closed to every non-ADMIN caller |
| PermitService.PatchIsIdempotent | backend/src/modules/permit-application/permit-application.service.ts:112-116 | applying an accepted patch twice equals applying it once |
| PermitService.EmptyPatchIsIdentity | backend/src/modules/permit-application/permit-application.service.ts:112-116 | an empty patch changes nothing |
| PermitService.Listed | backend/src/modules/permit-application/permit-application.service.ts:48-50 | the `where` clause of `findAll`: ADMIN sees every row; a caller with a non-empty id sees exactly the rows it owns; with no id or an empty one the filter is dropped and every row is listed |
| PermitService.NonAdminListing | backend/src/modules/permit-application/permit-application.service.ts:48-56 | a non-ADMIN with an id lists exactly its own rows; without one the filter is dropped and it lists every row |
| PermitService.CreateThenFindOne | backend/src/modules/permit-application/permit-application.service.ts:23-88 | a created row read back by its owner is the three inputs with the caller as owner, the default status and the store's time |
| AuthService.PublicView | backend/src/modules/auth/auth.service.ts:52-58 | the user in the login and register reply: id, email and role of the row; the name is present iff the row has a non-empty name, and then it is that name; the password hash is not part of it |
| AuthService.PayloadOf | backend/src/modules/auth/auth.service.ts:49 | the JWT payload: subject, email and role of the row (the same payload at line 86) |
| AuthService.ProfileOf | backend/src/modules/auth/auth.service.ts:119-126 | the profile: id, email, role and both timestamps of the row; the name is present iff the row has a non-empty name |
| AuthService.TokenDescribesUser | backend/src/modules/auth/auth.service.ts:49-60 | the token payload's subject, email and role are the returned user's |
| AuthService.AuthService.Register | backend/src/modules/auth/auth.service.ts:23-67 | a taken email is 409 and adds nobody; otherwise one row is added holding the hash of the password, never the password, and the reply is 201 with the user and its token |
| AuthService.AuthService.Login | backend/src/modules/auth/auth.service.ts:69-100 | a missing user, an inactive user and a wrong password all give the same 401 "Invalid credentials"; otherwise 200 with the stored user and its token |
| AuthService.AuthService.GetProfile | backend/src/modules/auth/auth.service.ts:102-131 | succeeds iff a user has this id, returning that user's profile; otherwise 401 "User not found" |
| AuthService.RegisterThenLogin | backend/src/modules/auth/auth.service.ts:23-100 | after registering, logging in with the same password succeeds for the new user and a wrong password is refused |
| AuthStore.FailureMessage | frontend/app/stores/auth.ts:73-76 | the error recorded on failure is never empty: the server's message, else the thrown or envelope message, else the fallback |
| AuthStore.StoreAuth | frontend/app/stores/auth.ts:41-44 | both entries are written and every other storage entry is untouched |
| AuthStore.RemoveAuth | frontend/app/stores/auth.ts:51-54 | both entries are gone and every other storage entry is untouched |
| AuthStore.Restore | frontend/app/stores/auth.ts:19-35 | nothing is restored unless both entries are present and non-empty; an unparsable user is reported as corrupt; otherwise the stored token and parsed user |
| AuthStore.RemoveAuthIsIdempotent | frontend/app/stores/auth.ts:47-55 | clearing the entries twice is clearing them once |
| AuthStore.ClearedStorageRestoresNothing | frontend/app/stores/auth.ts:19-55 | after a clear, initialisation restores nothing |
| AuthStore.StoredSessionIsRestored | frontend/app/stores/auth.ts:19-45 | what `setAuth` stores, `initializeAuth` restores, when parse inverts stringify |
| AuthStore.UserOfProfile | frontend/app/stores/auth.ts:135-140 | the stored user keeps the profile's id, email, name and role |
| AuthStore.AuthStore.IsAuthenticated | frontend/app/stores/auth.ts:16 | `!!token && !!user`: authenticated exactly when the token is a non-empty string and a user is present; an empty token is no session |
| AuthStore.AuthStore.constructor | frontend/app/stores/auth.ts:10-13 | the store starts with no session, not loading and no error |
| AuthStore.AuthStore.SetAuth | frontend/app/stores/auth.ts:37-45 | token and user are set, both entries written on the client, nothing else changes; authenticated iff the token is non-empty |
| AuthStore.AuthStore.ClearAuth | frontend/app/stores/auth.ts:47-55 | token and user are null, both entries removed on the client, nothing else changes; not authenticated |
| AuthStore.AuthStore.InitializeAuth | frontend/app/stores/auth.ts:19-35 | on the client a stored session is loaded, a corrupt one cleared; otherwise nothing changes |
| AuthStore.AuthStore.Authenticate | frontend/app/stores/auth.ts:57-80 | an accepted reply starts the session with no error; any other outcome leaves the session, records a non-empty message and rethrows it; not loading afterwards |
| AuthStore.AuthStore.Login | frontend/app/stores/auth.ts:57-80 | `setAuth` happens iff the reply has success and data; otherwise the error is recorded and thrown ("Login failed" fallback); not loading afterwards |
| AuthStore.AuthStore.Register | frontend/app/stores/auth.ts:82-105 | the same with the "Registration failed" fallback |
| AuthStore.AuthStore.Logout | frontend/app/stores/auth.ts:107-115 | the session is cleared and the error reset |
| AuthStore.AuthStore.FetchProfile | frontend/app/stores/auth.ts:117-163 | without a token it throws before any change; on success the user is replaced, the token kept and the user entry rewritten; a 401 from the server clears the session; other failures only record the message; not loading afterwards |
| AuthStore.ClearAuthIsIdempotent | frontend/app/stores/auth.ts:47-55 | clearing twice leaves the same state as clearing once |
| AuthStore.LoginSurvivesReload | frontend/app/stores/auth.ts:19-80 | a session started by login on the client is restored, authenticated, by a fresh store over the same storage |
| ApplicationSchema.Utf16Length | frontend/app/features/applications/schemas.ts:6-8 | the JavaScript length lies between the number of characters and twice that, and equals it when every character is in the Basic Multilingual Plane |
| ApplicationSchema.NameIssues | frontend/app/features/applications/schemas.ts:4-9 | no issue iff 2 ≤ length ≤ 100 and every character is an ASCII letter or white space; each message appears iff its own check fails |
| ApplicationSchema.EmailIssues | frontend/app/features/applications/schemas.ts:10 | no issue iff non-empty and an email; each message iff its check fails |
| ApplicationSchema.PermitTypeIssues | frontend/app/features/applications/schemas.ts:11-15 | no issue iff 3 ≤ length ≤ 100, whatever the characters; each message iff its check fails |
| ApplicationSchema.Issues | frontend/app/features/applications/schemas.ts:3-16 | the form has no issue iff all three field rules hold; an issue with a field's path and a message is reported iff that message is among the field's issues; every issue carries one of the three paths |
| ApplicationSchema.BlankNameIsAccepted | frontend/app/features/applications/schemas.ts:7-9 | a name of two spaces passes the name rule |
| ApplicationSchema.AnyThreeCharactersArePermitType | frontend/app/features/applications/schemas.ts:11-15 | any three characters of the Basic Multilingual Plane are a valid permit type |
| ApplicationSchema.AstralCharacterCountsTwice | frontend/app/features/applications/schemas.ts:7 | one character outside the Basic Multilingual Plane has length 2 |

## Left out

- The database is a map field. Prisma's I/O, transactions and concurrent requests are not
  modelled. Two requests never interleave.
- Database-generated values and defaults are parameters because the database schema is not
  part of this model. These are ids, `submitted_at`, `createdAt`/`updatedAt`, the default
  `application_status`, the default `role` and the default `isActive`.
- PermitService.PermitApplicationService.FindAll:
  - an absent or empty caller id drops the owner filter, as the query library does with an
    `undefined` filter value, so such a non-ADMIN lists every row;
  - the order among rows with equal `submitted_at` is not stated, since the database does not
    fix it either.
- PermitService.PermitApplicationService.Update, Remove and UpdateStatus: a row deleted
  between the read and the write (Prisma's P2025 at that point) cannot happen in a
  sequential map.
- The JWT check (passport's `super.canActivate` and the token signature) is an input: it
  rejects, or accepts with an optional identity.
- bcrypt's hash and compare and the JWT signer are opaque functions. Cost factor 12 and
  expiry are not modelled.
- The `IsEmail` validator and zod's `.email()` are an opaque email predicate.
- The exception filter's Logger calls and the Express `response.status().json()` write are
  not modelled. The reply is returned as a value.
- ExceptionFilter.ThrownValue: a thrown `Error` is represented by its name, its message and
  the enumerable own properties that `JSON.stringify` writes. Which own properties a library
  error class defines (for example Prisma's) is an input. The stack is not modelled.
- Whether a Prisma validation error carries a `code` property is a fact about the Prisma
  library, so it is an input flag.
- `JSON.parse` and `JSON.stringify` are function constants of the store. A parse that yields a
  JSON value which is not a user is represented only as "no user".
- The ValidationPipe setup (whitelisting, transformation) is not part of this model. The
  model assumes that the pipe strips undeclared members, so that the patch is the
  three-member type. `PermitDto.UpdateIgnoresOtherMembers` holds only under that assumption.
  Without whitelisting, a PATCH body's `application_status` would reach the database update.
- PermitService.PermitApplicationService.Update: the error the database raises for a `null`
  in a required column is the parameter `nullRejected`. The query library raises a
  validation error there. Its message and whether it has a `code` property are facts about
  that library, so the reply the filter makes of it is not fixed by this model.
- ExceptionFilter.HandleHttpException: a response object whose `message` is not a string is
  not represented. This includes the array of constraint messages that the ValidationPipe
  produces for an invalid body. The filter copies such a message unchanged into the
  envelope's `message`, which the model types as a string. The pipe's rejection of invalid
  bodies is not modelled either.
- AuthGuard.CanActivate: "Authentication required" and "User not found" are the guard's own
  text. Passport's `super.canActivate` rejects a missing or invalid token, or a token
  without a user, first. It throws its own UnauthorizedException with the message
  "Unauthorized". So clients see that message, not these two. The allow, 401 and 403
  decision is the same either way.
- Controllers.AsWrittenListingFiltersByObject: what the database does with a user object as
  a filter value is not modelled. Most likely it refuses the query with a validation error.
- The register and login DTO validators are not part of this model. Their bodies are taken
  as already validated.
- The frontend's `navigateTo` after logout, the HTTP transport of `$fetch`, the auth plugin,
  the composable and the route middleware are not modelled.
- The zod schema's type checks ("Required", "Expected string") are not modelled. The form
  fields are taken to be strings.
- Configuration (`NODE_ENV` is an input to the filter), module wiring, Swagger decorators and
  the bootstrap are not modelled. The guard and the filter apply to every route, as
  `app.module.ts` registers them globally.

## Findings

| source | as written | input that shows it | evidently intended | confidence | as-written member | corrected member |
|---|---|---|---|---|---|---|
| backend/src/modules/permit-application/permit-application.controller.ts:49-63 | `findAll(user)`, `findOne(id, user)`, `update(id, dto, user)` and `remove(id, user)` pass the whole user object where the service expects `(userId?, userRole?)`. The object is never strictly equal to the row's owner id, and the role slot is undefined. | An ADMIN, or the row's own USER, calls GET /permit-applications/:id for an existing row. `application.userId !== user` holds and `undefined !== 'ADMIN'` holds, so the reply is 403. | Pass `user.id` and `user.role`, so that an ADMIN and the owner are allowed and everyone else is refused. | medium, not executed | Controllers.AsWrittenEveryoneIsDenied | Controllers.DispatchedCallerDecidesByOwnership |
