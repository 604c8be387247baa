# ai-forge-studio access control, modelled in Dafny

ai-forge-studio is a multi-tenant Next.js application: users belong to tenants through
memberships with a role (ADMIN, MANAGER, MEMBER, VIEWER), every request is resolved to a
tenant, and every entity row (project, requirement, module, task) carries a `tenantId`.
This project models the layer that decides who may do what in which tenant:

- the tenant middleware: resolving the tenant of a request (the `x-tenant-id` header,
  then the Host's first label, then `/tenant/<slug>`), membership validation, the five
  used/max quota counter pairs, the `withTenant` / `withTenantQuota` wrappers, and the
  tenant-aware gateway `TenantAwarePrisma`, which forces `tenantId` into every filter and
  every created row (`tenant.dfy`, `gateway.dfy`);
- the server permission table and `hasPermission` with its owner and tenant conditions,
  and the three permission wrappers (`permission.dfy`);
- token extraction (Bearer header before the `auth-token` cookie), token verification and
  the `withAuth` / `withOptionalAuth` wrappers (`auth.dfy`);
- the login, register and switch-tenant routes: validation, target-tenant choice, the
  slug transform, the initial rows of a new tenant, the order of the checks, the claims
  signed and the `currentTenantId` write (`login.dfy`, `register.dfy`, `slug.dfy`,
  `switch_tenant.dfy`, `session.dfy`);
- the client: the wildcard permission matcher and the stored auth state of `useAuth`
  (`use_auth.dfy`), the list store's actions (`app_store.dfy`), the `ApiClient` URL
  builder, header merge, interceptor folding, retry loop, response decoding and default
  interceptors (`request.dfy`), and the error boundary with its asynchronous handler
  registry (`error_boundary.dfy`);
- the tenanted `tasks` and `modules` list/create routes: `parseInt`-based paging, the
  filter object, pagination arithmetic, create defaults and the tenant-scoped parent
  check (`listing.dfy`, `tasks_route.dfy`, `modules_route.dfy`).

The database is a class `Store.Database` holding the user, tenant, membership and quota
tables and the four entity tables as sequences (insertion order is the order Prisma's
`findFirst` / `findMany` see). Entity rows are maps from column to JSON value; a filter
maps a column to a value or to a condition through a relation (`module: { projectId }`).
Code the model cannot see is a parameter: `jsonwebtoken.sign` / `verify` (`Signer`,
`Verifier`), zod's e-mail check (`EmailCheck`), `JSON.parse` (`JsonParser`), `fetch`
(`Fetcher`), `Date.now()` (`now`), generated ids (`NewIds`, `newId`), and a store
exception (`fault`, `txFault`). Route handlers and wrapped handlers are function
parameters returning `Returned(response)` or `Threw`, so "the handler is not called" is
stated as "the result is the same for every handler". JavaScript truthiness is modelled:
an empty string is as absent as a missing one wherever the code tests a value with `if`.

Behaviour the model follows because the code has it:

- the server permission table has no wildcard and no implicit ADMIN rule; the client
  matcher has both;
- a missing JWT secret inside `verifyToken` turns into a 401 in `withAuth`, never a 500;
- login does not compare the password and grants a tenant whatever its status, as long
  as the membership is ACTIVE;
- the secret check of switch-tenant cannot fail: the route sits behind `withAuth`, which
  has already verified a token with that secret;
- quota counters are neither clamped nor bounded;
- a header naming a missing or inactive tenant falls through to the next strategy;
- a relative URL that starts with `http` (`http-status`) is not prefixed by the base URL;
- an error response whose body is the JSON `null` makes the decoder itself throw a
  `TypeError`, which the retry loop then retries like a network failure;
- a thrown `null` sets `hasError` but still renders the children;
- the gateway forces `tenantId` into every filter and every create, but an update's data
  is merged over the whole row (`{...row, ...data}`), so data carrying a `tenantId` moves
  the matched rows to that tenant;
- `?page=-1` gives a negative `skip`, which Prisma rejects (500); `?limit=-5` is a
  negative `take`, which Prisma reads as "the last 5 rows".

## Model

| member | source | states |
|---|---|---|
| TenantMiddleware.Subdomain | src/lib/middleware/tenant.ts:56 | the subdomain is a prefix of the host without a `.`, followed by a `.` or by the end of the host |
| TenantMiddleware.HostSlug | src/lib/middleware/tenant.ts:54-59 | a host candidate exists iff a Host header is present and its first label is not www/api/admin/app/localhost, and it is that label |
| TenantMiddleware.PathSlug | src/lib/middleware/tenant.ts:82-85 | a path candidate exists iff the non-empty path segments number at least two and the first is `tenant`; it is a non-empty segment of the path |
| TenantMiddleware.ResolveTenant | src/lib/middleware/tenant.ts:28-118 | a resolved tenant is a row of the table, is ACTIVE, and is named by the header id, the host label or the path slug; a store fault never resolves; the only failures are "unrecognised" and, on a fault, the lookup error |
| TenantMiddleware.HeaderTakesPrecedence | src/lib/middleware/tenant.ts:31-51 | a header naming an ACTIVE tenant decides the resolution whatever the host and path say |
| TenantMiddleware.HostSlugTakesPrecedence | src/lib/middleware/tenant.ts:31-79 | with no header naming an ACTIVE tenant, a host label naming an ACTIVE tenant decides the resolution whatever the path says |
| TenantMiddleware.PathSlugResolves | src/lib/middleware/tenant.ts:81-105 | with no header naming an ACTIVE tenant and no host label proposed, a `/tenant/<slug>` path naming an ACTIVE tenant resolves to it |
| TenantMiddleware.NoActiveSignalNotRecognised | src/lib/middleware/tenant.ts:28-110 | with the store answering and none of header, host label and path slug naming an ACTIVE tenant, the request is "unrecognised" |
| TenantMiddleware.InactiveHeaderFallsThrough | src/lib/middleware/tenant.ts:31-51 | a header naming a missing or non-ACTIVE tenant resolves exactly as the request without that header |
| TenantMiddleware.ReservedSubdomainIgnored | src/lib/middleware/tenant.ts:54-79 | a reserved first label resolves exactly as the request without a Host header |
| TenantMiddleware.SuspendedSubdomainNotRecognised | src/lib/middleware/tenant.ts:54-110 | a host label naming a non-ACTIVE tenant, with no header and no path slug, ends as "unrecognised" |
| TenantMiddleware.ValidateUserTenantIff | src/lib/middleware/tenant.ts:123-141 | membership validation holds iff there is no store fault and some membership row has exactly that user, that tenant and status ACTIVE |
| TenantMiddleware.CheckTenantQuota | src/lib/middleware/tenant.ts:146-177 | a fault or a missing quota row gives (false, 0, 0); otherwise the tenant's (used, max) pair for the resource; allowed iff current < limit |
| TenantMiddleware.Bump | src/lib/middleware/tenant.ts:190-206 | the selected used counter grows by delta; every other counter and every max is unchanged; nothing is clamped |
| TenantMiddleware.BumpQuotas | src/lib/middleware/tenant.ts:208-211 | the table keeps its length; without a row for the tenant it is unchanged; otherwise the tenant's row becomes its bumped row |
| TenantMiddleware.BumpQuotasOtherTenants | src/lib/middleware/tenant.ts:208-211 | the quota row of every other tenant is unchanged by an update |
| TenantMiddleware.UpdateTenantQuotaUsage | src/lib/middleware/tenant.ts:182-218 | true iff there is no fault and the tenant has a quota row; the table is then bumped, and otherwise left as it was |
| TenantMiddleware.CheckAfterUpdate | src/lib/middleware/tenant.ts:146-218 | after an update, a check sees the same limit and a current value that moved by delta only for the updated tenant and resource |
| TenantMiddleware.Repeat | src/lib/middleware/tenant.ts:182-218 | n updates by delta leave the tenant's row bumped by n * delta, and leave a table without the tenant's row unchanged |
| TenantMiddleware.RepeatedIncrements | src/lib/middleware/tenant.ts:146-218 | after n increments of one, the check reports used + n against the same max and allows iff used + n < max |
| TenantMiddleware.TenantGate | src/lib/middleware/tenant.ts:223-273 | 404 TENANT_NOT_FOUND iff the tenant is unresolved, before any membership check; 403 TENANT_ACCESS_DENIED iff a user is present and not an active member; admitted context carries the user and an ACTIVE tenant from the table |
| TenantMiddleware.WithTenant | src/lib/middleware/tenant.ts:223-291 | a denial returns the gate's error; an admitted request returns the handler's response, or 500 INTERNAL_ERROR when it throws |
| TenantMiddleware.WithTenantDenialIgnoresHandler | src/lib/middleware/tenant.ts:236-268 | on a denial the result does not depend on the handler |
| TenantMiddleware.QuotaGate | src/lib/middleware/tenant.ts:296-327 | admitted iff the quota check allows; a denial is 429 QUOTA_EXCEEDED naming the resource and carrying current and limit |
| TenantMiddleware.WithTenantQuota | src/lib/middleware/tenant.ts:296-332 | admitted requests get the handler's outcome; denied ones get the 429 response |
| TenantMiddleware.ExhaustedQuotaRefused | src/lib/middleware/tenant.ts:310-329 | a missing row or used >= max gives 429 QUOTA_EXCEEDED whatever the handler |
| TenantMiddleware.RepeatStep | src/lib/middleware/tenant.ts:208-211 | one more update by delta on a row already bumped by a leaves it bumped by a + delta |
| Gateway.ScopeMatches | src/lib/middleware/tenant.ts:350-353 | a row matches the scoped filter iff it belongs to the tenant and matches the caller's other conditions |
| Gateway.ScopedFindMany | src/lib/middleware/tenant.ts:347-355 | exactly the table's rows of the tenant that match the caller's other conditions |
| Gateway.ScopedFindUnique | src/lib/middleware/tenant.ts:356-364 | a found row is the tenant's and matches; none is found only when no row of the tenant matches |
| Gateway.NewRow | src/lib/middleware/tenant.ts:365-373 | a created row belongs to the instance's tenant whatever the data says, has an id, and keeps every other field of the data |
| Gateway.UpdateRows | src/lib/middleware/tenant.ts:374-382 | every matching row is merged with the data, every other row is kept, order and length unchanged |
| Gateway.ScopedUpdate | src/lib/middleware/tenant.ts:374-382 | other tables unchanged; every row the scoped filter does not target (another tenant's, or the tenant's own non-matching rows) unchanged; the tenant's matching rows merged with the data; the count is the number of targeted rows |
| Gateway.ScopedDelete | src/lib/middleware/tenant.ts:383-391 | other tables unchanged; the table becomes exactly its untargeted rows in order (every other tenant's row and the tenant's non-matching rows stay); the count is the number of targeted rows |
| Gateway.Isolation | src/lib/middleware/tenant.ts:345-391 | a row of another tenant is never returned by findMany/findUnique, never removed by delete and never changed by update |
| Gateway.CrossTenantByIdAffectsNothing | src/lib/middleware/tenant.ts:374-391 | updating or deleting by an id that only another tenant owns affects zero rows and leaves the tables unchanged |
| Gateway.ForeignIdNotFound | src/lib/middleware/tenant.ts:356-364 | findUnique by an id that only another tenant owns finds nothing |
| Gateway.TenantAwarePrisma.constructor | src/lib/middleware/tenant.ts:340-342 | the gateway is bound to its tenant and the store |
| Gateway.TenantAwarePrisma.FindMany | src/lib/middleware/tenant.ts:347-355 | returns the scoped findMany of the store; every row belongs to the tenant |
| Gateway.TenantAwarePrisma.FindUnique | src/lib/middleware/tenant.ts:356-364 | returns the scoped findUnique; a found row belongs to the tenant |
| Gateway.TenantAwarePrisma.Create | src/lib/middleware/tenant.ts:365-373 | appends the tenant-owned row to its table and changes nothing else |
| Gateway.TenantAwarePrisma.Update | src/lib/middleware/tenant.ts:374-382 | the store and count become the scoped update's: exactly the tenant's matching rows merged, their number returned; the account tables are unchanged |
| Gateway.TenantAwarePrisma.Delete | src/lib/middleware/tenant.ts:383-391 | the store and count become the scoped delete's: exactly the tenant's matching rows removed, their number returned; the account tables are unchanged |
| Permission.RolePermissions | src/lib/middleware/permission.ts:68-167 | a permission list exists exactly for ADMIN, MANAGER, MEMBER and VIEWER |
| Permission.HasPermission | src/lib/middleware/permission.ts:172-213 | allowed iff signed in, known role, exact list membership, owner or ADMIN/MANAGER when an owner is named, same tenant when a tenant is named; denial reasons in the order no user, no role, invalid role |
| Permission.RoleInclusionChain | src/lib/middleware/permission.ts:68-167 | VIEWER's list is within MEMBER's, MEMBER's within MANAGER's, MANAGER's within ADMIN's |
| Permission.HigherRoleAllowed | src/lib/middleware/permission.ts:68-194 | without conditions, a permission allowed to a role is allowed to every higher role |
| Permission.MemberCases | src/lib/middleware/permission.ts:133-154 | MEMBER is refused project:delete for insufficient permission and allowed task:update; ADMIN is allowed project:delete |
| Permission.ViewerReadsOnly | src/lib/middleware/permission.ts:155-166 | VIEWER is allowed exactly the five read permissions |
| Permission.CrossTenantRefusedForAll | src/lib/middleware/permission.ts:207-209 | a named tenant different from the user's is refused for every role, ADMIN included |
| Permission.OthersResourceNeedsPrivilege | src/lib/middleware/permission.ts:199-204 | a named owner other than the user is refused for MEMBER and VIEWER |
| Permission.WithPermission | src/lib/middleware/permission.ts:218-253 | the handler runs iff the permission is granted; otherwise 403 FORBIDDEN carrying the denial reason |
| Permission.WithPermissionDenialIgnoresHandler | src/lib/middleware/permission.ts:235-250 | a refused request's response does not depend on the handler |
| Permission.WithOwnerPermission | src/lib/middleware/permission.ts:258-285 | the handler runs iff the user is the owner or ADMIN/MANAGER; otherwise 403 FORBIDDEN |
| Permission.WithTenantPermission | src/lib/middleware/permission.ts:290-317 | the handler runs iff the user's tenant equals the tenant id exactly; otherwise 403 FORBIDDEN |
| Auth.UserOf | src/lib/middleware/auth.ts:43-51 | the user is the claims field for field: id from userId, email, tenantId, role |
| Auth.ClaimsOf | src/lib/middleware/auth.ts:43-51 | the claims a user corresponds to, field for field |
| Auth.ClaimsRoundTrip | src/lib/middleware/auth.ts:43-51 | claims-to-user and user-to-claims are inverse to each other |
| Auth.VerifyToken | src/lib/middleware/auth.ts:29-55 | a missing or empty secret gives the secret-missing failure; a verify failure gives the single invalid-token failure; otherwise the claims' user |
| Auth.ExtractToken | src/lib/middleware/auth.ts:60-74 | a header starting with `Bearer ` yields the rest after 7 characters; otherwise a non-empty `auth-token` cookie; otherwise nothing |
| Auth.BearerTakesPrecedence | src/lib/middleware/auth.ts:62-65 | with a Bearer header, the cookie does not change the extracted token |
| Auth.Authenticate | src/lib/middleware/auth.ts:83-99 | an authenticated user comes from a present token that verifies under a present secret to that user's claims |
| Auth.WithAuth | src/lib/middleware/auth.ts:79-111 | a missing token or any verification failure is 401 UNAUTHORIZED; otherwise the handler's response, or 500 when it throws |
| Auth.MissingSecretIsUnauthorized | src/lib/middleware/auth.ts:92-99 | without a secret a present token gives 401 with the secret-missing message, whatever the handler |
| Auth.EmptyBearerRefused | src/lib/middleware/auth.ts:62-90 | a header of exactly `Bearer ` extracts the empty string, which withAuth refuses as a missing token |
| Auth.OptionalUser | src/lib/middleware/auth.ts:120-128 | a user is passed iff the request authenticates, and it is that user |
| Auth.WithOptionalAuth | src/lib/middleware/auth.ts:116-140 | never refuses: a verified token calls the handler with its user, an absent or invalid token without one; a returned response passes through and a throwing handler gives 500 INTERNAL_ERROR |
| Http.Guarded | src/lib/middleware/auth.ts:101-109 | a returned response passes through; a throw becomes 500 INTERNAL_ERROR |
| Session.Issue | src/app/api/auth/login/route.ts:151-166 | the access token signs exactly the user's id, email, tenant and role for one hour; the refresh token signs the user id for seven days |
| Session.IssuedTokenAuthenticates | src/app/api/auth/login/route.ts:151-160 | an issued access token verifies to the session's id, email, tenant and role |
| Schema.RequiredString | src/app/api/auth/register/route.ts:9-10 | present iff the field is a string of at least the minimum length, and it is that string |
| Schema.OptionalString | src/app/api/auth/register/route.ts:11-12 | an absent field is accepted as absent; a present one is accepted iff it is a long enough string |
| Schema.OptionalNonNegative | src/app/api/tasks/route.ts:14 | an absent field is accepted as absent; a present one iff it is a number >= 0 |
| Schema.OptionalRecord | src/app/api/tasks/route.ts:15 | an absent field is accepted as absent; a present one iff it is an object |
| Schema.EnumOrDefault | src/app/api/tasks/route.ts:11-12 | an absent field gives the default; a present one is accepted iff it is one of the values, and it is that value |
| Schema.Email | src/app/api/auth/register/route.ts:9 | accepted iff the field is a string that passes the e-mail check |
| LoginRoute.ParseLogin | src/app/api/auth/login/route.ts:8-12 | accepted iff the e-mail passes the check, the password has at least 6 characters and the slug, if any, is a string |
| LoginRoute.Candidates | src/app/api/auth/login/route.ts:37-49 | every candidate is an ACTIVE membership of the user paired with its tenant |
| LoginRoute.CandidatesComplete | src/app/api/auth/login/route.ts:37-49 | every ACTIVE membership of the user whose tenant exists is a candidate |
| LoginRoute.CandidateFacts | src/app/api/auth/login/route.ts:37-49 | a candidate's tenant is its membership's tenant, and looking that tenant up among the candidates succeeds |
| LoginRoute.SelectTarget | src/app/api/auth/login/route.ts:80-114 | with a slug, found iff a candidate has that slug; without one, the current tenant if it is a candidate, else the first candidate, else none |
| LoginRoute.RoleIn | src/app/api/auth/login/route.ts:130-133 | the role is the role of the target tenant's membership among the candidates |
| LoginRoute.LoginPlan | src/app/api/auth/login/route.ts:14-149 | every refusal is an error response and a grant needs the secret and an answering store; once the body parses, the store answers and the e-mail names a user, a SelectTarget target is granted to that user with RoleIn's role when the secret is set, and is the 500 SERVER_ERROR when it is not |
| LoginRoute.LoginPlanRefusals | src/app/api/auth/login/route.ts:16-62 | an unreadable body is 500, an invalid one 400 VALIDATION_ERROR, a throwing user lookup 500 INTERNAL_ERROR, an unknown e-mail 404 USER_NOT_FOUND |
| LoginRoute.LoginPlanNoTarget | src/app/api/auth/login/route.ts:80-127 | a known user with no SelectTarget target gets 403 TENANT_ACCESS_DENIED when a slug was asked for and 403 NO_TENANT_ACCESS otherwise |
| LoginRoute.LoginPlanFacts | src/app/api/auth/login/route.ts:80-133 | a grant is for the e-mail's user and SelectTarget's candidate: an ACTIVE membership of that user, its tenant (the one with the slug if given), and that membership's role |
| LoginRoute.Login | src/app/api/auth/login/route.ts:14-205 | the response is the plan's (a store fault included, as 500 INTERNAL_ERROR); a refusal writes nothing; a grant returns the issued session and writes currentTenantId only when it differs from the target |
| LoginRoute.PasswordNeverCompared | src/app/api/auth/login/route.ts:64-78 | replacing the password by any other valid one does not change the outcome |
| LoginRoute.UnknownSlugRefused | src/app/api/auth/login/route.ts:82-98 | a slug matching no ACTIVE membership's tenant gives 403 TENANT_ACCESS_DENIED |
| LoginRoute.NoMembershipRefused | src/app/api/auth/login/route.ts:100-127 | without a slug and without an ACTIVE membership the result is 403 NO_TENANT_ACCESS |
| LoginRoute.SuspendedTenantStillGranted | src/app/api/auth/login/route.ts:37-49 | an ACTIVE membership in a SUSPENDED tenant is granted, with role MEMBER |
| RegisterRoute.ParseRegister | src/app/api/auth/register/route.ts:8-13 | accepted iff the e-mail passes, the password has 6 characters or more, and name / tenantName are absent or non-empty strings |
| RegisterRoute.TenantSlugFor | src/app/api/auth/register/route.ts:56-58 | a given tenant name gives its slug; otherwise `tenant-` followed by the decimal timestamp |
| RegisterRoute.TenantSlugWellFormed | src/app/api/auth/register/route.ts:56-58 | the derived slug is always well formed |
| RegisterRoute.DisplayName | src/app/api/auth/register/route.ts:87 | the given name, else the e-mail's part before its first `@` |
| RegisterRoute.StarterQuota | src/app/api/auth/register/route.ts:114-123 | maxima 10/5/100/1000/1073741824 and every counter at zero, for the new tenant |
| RegisterRoute.InitialRows | src/app/api/auth/register/route.ts:82-131 | the created user, tenant and membership carry the generated ids, and the quota row is the tenant's starter quota |
| RegisterRoute.InitialRowsFit | src/app/api/auth/register/route.ts:82-131 | the user administers the ACTIVE FREE tenant, holds its ADMIN ACTIVE membership, has it as current tenant, and the quota row is the tenant's |
| RegisterRoute.RegisterPlan | src/app/api/auth/register/route.ts:15-76 | unreadable body 500, invalid body 400, a throwing lookup 500 INTERNAL_ERROR; a creation has a valid body, an answering store, an unused e-mail and an unused slug, and conversely a valid body with an unused e-mail and slug is created under TenantSlugFor's slug |
| RegisterRoute.ExistingEmailRefused | src/app/api/auth/register/route.ts:38-53 | an e-mail already registered gives 409 USER_EXISTS |
| RegisterRoute.TakenSlugRefused | src/app/api/auth/register/route.ts:61-76 | a slug already taken gives 409 TENANT_EXISTS |
| RegisterRoute.Register | src/app/api/auth/register/route.ts:15-196 | a refusal (a throwing lookup included) or a failed transaction writes nothing and answers the plan's error or 500; a committed one appends exactly the four rows, which stay when the secret is then missing (500) |
| RegisterRoute.RegisteredTenantUsable | src/app/api/auth/register/route.ts:93-123 | the new tenant resolves by header, the user validates as its member, and its project quota allows 0 of 10 |
| SwitchTenantRoute.ParseSwitch | src/app/api/auth/switch-tenant/route.ts:8-10 | accepted iff tenantId is a non-empty string, and it is that string |
| SwitchTenantRoute.SwitchPlan | src/app/api/auth/switch-tenant/route.ts:12-87 | unreadable body 500, invalid body 400 VALIDATION_ERROR, a throwing lookup 500; a switch has an ACTIVE membership for the requested tenant, an ACTIVE tenant, a secret and the user's row, and conversely all of these give that switch |
| SwitchTenantRoute.SwitchSession | src/app/api/auth/switch-tenant/route.ts:89-137 | the claims and the returned user carry the membership's tenant and role |
| SwitchTenantRoute.SwitchTenant | src/app/api/auth/switch-tenant/route.ts:12-152 | withAuth's 401 first; the response is the plan's (a store fault included); a refusal writes nothing; a switch returns the session and sets currentTenantId to the tenant |
| SwitchTenantRoute.SwitchLandsOnRequested | src/app/api/auth/switch-tenant/route.ts:35-71 | the switch lands on the requested tenant, through an ACTIVE membership of the user, in an ACTIVE tenant |
| SwitchTenantRoute.NoMembershipHidesStatus | src/app/api/auth/switch-tenant/route.ts:35-57 | without an ACTIVE membership the answer is 403 TENANT_ACCESS_DENIED whatever the tenant's status |
| SwitchTenantRoute.InactiveTenantRefused | src/app/api/auth/switch-tenant/route.ts:60-71 | a membership in a non-ACTIVE tenant gives 403 TENANT_INACTIVE |
| SwitchTenantRoute.SecretCheckUnreachable | src/app/api/auth/switch-tenant/route.ts:74-87 | behind withAuth, the 500 SERVER_ERROR branch is never taken |
| SwitchTenantRoute.SwitchedTokenUsable | src/app/api/auth/switch-tenant/route.ts:89-98 | the new token verifies to the new tenant and role, and that tenant resolves and validates the user |
| Slug.LowerAscii | src/app/api/auth/register/route.ts:57 | upper-case ASCII letters become lower case; every other character is kept |
| Slug.Dashify | src/app/api/auth/register/route.ts:57 | same length; each lower-cased character is kept when in [a-z0-9], else becomes `-` |
| Slug.CollapseNoDoubleDash | src/app/api/auth/register/route.ts:57 | collapsing dash runs leaves no `--` |
| Slug.CollapseAlnums | src/app/api/auth/register/route.ts:57 | collapsing keeps the alphanumerics in order |
| Slug.CollapseFixes | src/app/api/auth/register/route.ts:57 | a string without `--` is unchanged by collapsing |
| Slug.TrimShape | src/app/api/auth/register/route.ts:57 | stripping one dash at each end leaves no dash at either end, no `--`, and the same alphanumerics |
| Slug.SlugifyIsSlug | src/app/api/auth/register/route.ts:56-57 | the slug has only [a-z0-9-], no `--` and no dash at either end |
| Slug.SlugifyFixesSlugs | src/app/api/auth/register/route.ts:56-57 | a well-formed slug is its own slug |
| Slug.SlugifyIdempotent | src/app/api/auth/register/route.ts:56-57 | deriving a slug twice gives the same slug |
| Slug.DashifyAlnums | src/app/api/auth/register/route.ts:57 | the mapping keeps exactly the lower-cased alphanumerics |
| Slug.SlugifyKeepsAlnums | src/app/api/auth/register/route.ts:56-57 | the slug keeps exactly the name's lower-cased ASCII alphanumerics, in order |
| Slug.NoAlnumsEmptySlug | src/app/api/auth/register/route.ts:56-57 | a name without ASCII alphanumerics gives the empty slug |
| Strs.SplitPartsLackSeparator | src/lib/middleware/tenant.ts:83 | no part of a split contains the separator |
| Strs.JoinSplit | src/lib/middleware/tenant.ts:83 | joining the parts with the separator gives back the string |
| Strs.HeadPart | src/lib/middleware/tenant.ts:56 | the first part is a prefix without the separator, followed by the separator or the end |
| Strs.NonEmpty | src/lib/middleware/tenant.ts:83 | exactly the non-empty parts of the input, in order (the Filter by truthiness): every kept part is a non-empty input part and every non-empty input part is kept |
| Strs.ReplaceWildcardSuffix | src/lib/hooks/useAuth.ts:251 | replacing `:*` in `res:*` gives `res:` |
| Strs.Decimal | src/app/api/auth/register/route.ts:58 | the rendering of a number is non-empty and made of digits |
| Store.QuotaOf | src/lib/middleware/tenant.ts:151-153 | none iff no row has the tenant id; a found row is in the table and has that id |
| Store.SetCurrentTenant | src/app/api/auth/login/route.ts:169-174 | only the user's currentTenantId changes, to the tenant; every other field and row is kept |
| UseAuth.ClientRolePermissions | src/lib/hooks/useAuth.ts:240-247 | an unknown role has the empty list |
| UseAuth.HasPermission | src/lib/hooks/useAuth.ts:233-252 | false without a user or without a role |
| UseAuth.WildcardEntry | src/lib/hooks/useAuth.ts:249-251 | an entry `res:*` matches exactly the permissions starting with `res:` |
| UseAuth.PlainEntry | src/lib/hooks/useAuth.ts:249-251 | an entry not ending in `*` matches only itself |
| UseAuth.TableEntryCovers | src/lib/hooks/useAuth.ts:249-251 | for the table's entries, the three tests together are "the entry covers the permission" |
| UseAuth.HasPermissionIff | src/lib/hooks/useAuth.ts:233-252 | allowed iff some entry of the role's list covers the permission |
| UseAuth.AdminGrantedEverything | src/lib/hooks/useAuth.ts:241 | ADMIN is allowed every permission string |
| UseAuth.UnknownRoleGrantedNothing | src/lib/hooks/useAuth.ts:247 | a role outside the table is allowed nothing |
| UseAuth.ManagerGrantedResources | src/lib/hooks/useAuth.ts:242 | MANAGER is allowed every action on project, requirement, module and task |
| UseAuth.MemberDeletesTasks | src/lib/hooks/useAuth.ts:243 | MEMBER is allowed task:delete |
| UseAuth.MemberCannotUpdateProjects | src/lib/hooks/useAuth.ts:243 | MEMBER is refused project:update |
| UseAuth.ViewerReadsOnly | src/lib/hooks/useAuth.ts:244 | VIEWER is allowed exactly the four listed reads |
| UseAuth.AuthSession.constructor | src/lib/hooks/useAuth.ts:58-63 | the stored token, refresh token and user, and no error |
| UseAuth.AuthSession.SetAuthData | src/lib/hooks/useAuth.ts:73-80 | stores user and token, clears the error, replaces the refresh token only when one is given; authenticated iff the token is non-empty |
| UseAuth.AuthSession.ClearAuthData | src/lib/hooks/useAuth.ts:83-88 | user, token, refresh token and error all cleared; not authenticated |
| UseAuth.AuthSession.RefreshAuthToken | src/lib/hooks/useAuth.ts:154-173 | without a refresh token: false, no request, nothing changed; otherwise posts it, stores the reply's data on success, clears all auth data on failure |
| AppStore.WithSlice | src/store/index.ts:151-227 | replaces one entity's slice and keeps every other slice and field |
| AppStore.Initial | src/store/index.ts:150-227 | no user, empty lists, no current items, loading and sidebar off |
| AppStore.UpdateItems | src/store/index.ts:161-164 | same length; each item merged with the updates iff its id matches |
| AppStore.MergeCurrent | src/store/index.ts:165-167 | a current item is merged iff its id matches; none stays none |
| AppStore.ActionFrame | src/store/index.ts:151-227 | every action leaves every part of the state it does not write unchanged |
| AppStore.AddPrepends | src/store/index.ts:158-160 | the new item first, then the old list in order |
| AppStore.UpdateMergesMatching | src/store/index.ts:161-164 | matching items merged, others unchanged, length and order kept |
| AppStore.UpdateAbsentId | src/store/index.ts:161-164 | an id no item has leaves the list as it was |
| AppStore.UpdateIdempotent | src/store/index.ts:161-167 | applying the same update twice equals applying it once |
| ApiRequest.MergeConfig | src/lib/utils/request.ts:145 | a given field of the patch overrides the base |
| ApiRequest.DefaultAttempts | src/lib/utils/request.ts:44-49 | with the default retries a request makes at most four attempts |
| ApiRequest.BuildURL | src/lib/utils/request.ts:85-90 | a URL starting with `http` is kept; otherwise base URL, exactly one `/`, then the path |
| ApiRequest.HttpPrefixedPathUntouched | src/lib/utils/request.ts:86-88 | the relative path `http-status` is not prefixed by the base URL |
| ApiRequest.MergeHeaders | src/lib/utils/request.ts:98-105 | Content-Type default, overridden by the options' headers, overridden by the config's headers; no other keys |
| ApiRequest.PipeAppend | src/lib/utils/request.ts:108-110 | a newly registered interceptor applies last, to the previous ones' output |
| ApiRequest.RunInterceptors | src/lib/utils/request.ts:108-110 | the loop applies the interceptors in registration order |
| ApiRequest.DecodeFailure | src/lib/utils/request.ts:188-204 | a `null` body throws a TypeError; otherwise a RequestError with the status; a non-JSON body becomes `{message: text}` with code HTTP_ERROR |
| ApiRequest.DecodeSuccess | src/lib/utils/request.ts:207-218 | the parsed body, or `{success: true, data: text}` when it is not JSON |
| ApiRequest.ServerErrorDecodes | src/lib/utils/request.ts:188-204 | a server error envelope decodes to its own code and message |
| ApiRequest.NullErrorBodyIsTypeError | src/lib/utils/request.ts:199-200 | an error response with body `null` fails as a TypeError |
| ApiRequest.UnauthorizedDropsSession | src/lib/utils/request.ts:350-360 | a server's UNAUTHORIZED error envelope decodes to a request error, which is not retried, and the default interceptor then leaves none of the three session keys |
| ApiRequest.AttachTenant | src/lib/utils/request.ts:317-334 | verb, body and other headers kept; a stored parsable user with a non-empty string tenantId sets x-tenant-id to it, overriding any value; otherwise the request is unchanged |
| ApiRequest.AttachToken | src/lib/utils/request.ts:337-347 | with a stored non-empty token the Authorization header is `Bearer ` plus it; otherwise the request is unchanged |
| ApiRequest.AttachedTokenExtracted | src/lib/utils/request.ts:337-347 | the server's token extraction reads back exactly the stored token from the attached header |
| ApiRequest.ClearOnUnauthorized | src/lib/utils/request.ts:350-372 | an UNAUTHORIZED request error removes exactly the three session keys; any other error leaves storage unchanged |
| ApiRequest.ApiClient.constructor | src/lib/utils/request.ts:64-67 | the base URL, the defaults merged with the given config, and no interceptors |
| ApiRequest.ApiClient.AddRequestInterceptor | src/lib/utils/request.ts:70-72 | appended at the end |
| ApiRequest.ApiClient.AddResponseInterceptor | src/lib/utils/request.ts:75-77 | appended at the end |
| ApiRequest.ApiClient.AddErrorInterceptor | src/lib/utils/request.ts:80-82 | appended at the end |
| ApiRequest.ApiClient.Verdict | src/lib/utils/request.ts:220-243 | a successful attempt resolves with its data; a failed one rejects with the processed error |
| ApiRequest.ApiClient.Attempt | src/lib/utils/request.ts:152-220 | one attempt's step is the attempt function's |
| ApiRequest.ApiClient.Settle | src/lib/utils/request.ts:222-244 | settles iff this was the last attempt or the processed error is not a TypeError, with that attempt's verdict |
| ApiRequest.ApiClient.Retry | src/lib/utils/request.ts:148-251 | at most retries + 1 attempts; only TypeErrors are retried; waits are 1000·k ms; the result is the last attempt's verdict; no attempt at all rejects with the generic failure |
| ApiRequest.ApiClient.Request | src/lib/utils/request.ts:140-252 | the retry policy above, on the merged config and the built URL |
| ErrorBoundary.DeriveFromError | src/components/ui/ErrorBoundary.tsx:42-47 | hasError set and the thrown value recorded; the component stack kept |
| ErrorBoundary.DidCatch | src/components/ui/ErrorBoundary.tsx:50-54 | the error and the component stack recorded |
| ErrorBoundary.Reset | src/components/ui/ErrorBoundary.tsx:68-74 | back to no error, no error value, no stack |
| ErrorBoundary.Render | src/components/ui/ErrorBoundary.tsx:86-163 | children iff not (hasError and an error); then the fallback if given, else the default page |
| ErrorBoundary.ResetRendersChildren | src/components/ui/ErrorBoundary.tsx:68-74 | after any error, a reset renders the children |
| ErrorBoundary.CaughtErrorShown | src/components/ui/ErrorBoundary.tsx:96-100 | a caught error shows the fallback with the error and stack, or the default page |
| ErrorBoundary.ThrownNullRendersChildren | src/components/ui/ErrorBoundary.tsx:96 | a thrown null sets hasError yet renders the children |
| ErrorBoundary.IndexOf | src/components/ui/ErrorBoundary.tsx:224 | -1 iff absent; otherwise the first position of the handler |
| ErrorBoundary.RemoveFirst | src/components/ui/ErrorBoundary.tsx:223-228 | unchanged when absent; otherwise exactly one occurrence, the first, is removed |
| ErrorBoundary.AddThenRemove | src/components/ui/ErrorBoundary.tsx:218-228 | adding a new handler and removing it restores the registry |
| ErrorBoundary.RemoveOneOfDuplicates | src/components/ui/ErrorBoundary.tsx:223-228 | of two registrations only the first is removed |
| ErrorBoundary.AsyncErrorHandler.constructor | src/components/ui/ErrorBoundary.tsx:215 | the registry starts empty |
| ErrorBoundary.AsyncErrorHandler.AddErrorHandler | src/components/ui/ErrorBoundary.tsx:218-220 | appended at the end |
| ErrorBoundary.AsyncErrorHandler.RemoveErrorHandler | src/components/ui/ErrorBoundary.tsx:223-228 | the first occurrence removed, nothing when absent |
| ErrorBoundary.AsyncErrorHandler.HandleAsyncError | src/components/ui/ErrorBoundary.tsx:231-244 | every handler called in order, the throwing ones exactly those that throw; unhandled iff the registry is empty |
| Listing.TrimStart | src/app/api/tasks/route.ts:26 | a suffix of the input that does not start with white space |
| Listing.RunLength | src/app/api/tasks/route.ts:26 | the length of the longest prefix of digits in the base |
| Listing.ValueOfDecimal | src/app/api/tasks/route.ts:26 | reading a number's decimal rendering gives the number back |
| Listing.ParseIntDecimal | src/app/api/tasks/route.ts:26 | parseInt reads a decimal number, optionally negative, and ignores a non-digit suffix |
| Listing.LeadingSpaceIgnored | src/app/api/tasks/route.ts:26 | leading white space does not change parseInt |
| Listing.NonNumericIsNaN | src/app/api/tasks/route.ts:26 | text not starting with a digit, sign or space is NaN |
| Listing.PageParam | src/app/api/tasks/route.ts:26 | the page is never 0, and 1 when absent |
| Listing.LimitParam | src/app/api/tasks/route.ts:27 | the limit is never 0 and never above 100, and 10 when absent |
| Listing.PageAndLimitFromDecimal | src/app/api/tasks/route.ts:26-27 | a positive number is the page, and the limit capped at 100 |
| Listing.ZeroOrNaNDefaults | src/app/api/tasks/route.ts:26-27 | `0` or non-numeric text gives page 1 and limit 10 |
| Listing.CeilDiv | src/app/api/tasks/route.ts:109 | totalPages is the ceiling of total / limit |
| Listing.Window | src/app/api/tasks/route.ts:95-96 | skip then take rows in order; a negative take counts from the end |
| Listing.Paginate | src/app/api/tasks/route.ts:53-112 | a negative offset fails with 500; otherwise the window at (page − 1) · limit and the pagination totals |
| Listing.PageRowsFromAll | src/app/api/tasks/route.ts:95-96 | every row on a page is a matching row |
| Listing.PagesCoverRows | src/app/api/tasks/route.ts:54-109 | every row appears on some page between 1 and totalPages, at its place |
| Listing.PastLastPageEmpty | src/app/api/tasks/route.ts:95-109 | a page past the last one is empty with the same totals |
| Listing.EnumParam | src/app/api/tasks/route.ts:23-25 | an absent parameter is accepted as absent; a present one iff it is one of the values |
| Listing.With | src/app/api/tasks/route.ts:57-61 | a field is added only when the value is given; other fields kept |
| TasksRoute.ParseTaskQuery | src/app/api/tasks/route.ts:20-28 | refused iff an enum parameter is out of range; otherwise the filters as given and the page and limit rules |
| TasksRoute.TaskFilterUnique | src/app/api/tasks/route.ts:57-68 | the filter a query asks for is unique |
| TasksRoute.BuildTaskWhere | src/app/api/tasks/route.ts:57-68 | exactly the truthy filters, the project through the task's module, and no tenant key |
| TasksRoute.ListTasks | src/app/api/tasks/route.ts:31-112 | 400 for an invalid query; otherwise the page of the tenant's matching tasks; every listed task is the tenant's and matches |
| TasksRoute.TotalIgnoresPaging | src/app/api/tasks/route.ts:98 | the total does not depend on page and limit |
| TasksRoute.ListedTaskInProject | src/app/api/tasks/route.ts:64-68 | with a project filter, every listed task's module is in that project |
| TasksRoute.ParseTask | src/app/api/tasks/route.ts:8-17 | accepted iff each field passes its rule; title and moduleId non-empty; type and priority in range |
| TasksRoute.TaskData | src/app/api/tasks/route.ts:183-187 | the row carries title, type, priority and moduleId and only task columns |
| TasksRoute.TaskDataOptional | src/app/api/tasks/route.ts:183-185 | each optional column is present iff it was given |
| TasksRoute.ParsedOptionalFields | src/app/api/tasks/route.ts:10-16 | each optional field is taken iff present, with the body's value |
| TasksRoute.ParsedDefaults | src/app/api/tasks/route.ts:11-12 | type defaults to DEVELOPMENT and priority to MEDIUM; given values are kept |
| TasksRoute.BodyCannotSetStatusOrTenant | src/app/api/tasks/route.ts:183-187 | the body can set neither status nor tenantId |
| TasksRoute.MinimalTaskDefaults | src/app/api/tasks/route.ts:8-17 | a body with only title and moduleId gets the defaults and nothing else |
| TasksRoute.NegativeHoursRejected | src/app/api/tasks/route.ts:14 | negative estimated hours are refused |
| TasksRoute.CreateTask | src/app/api/tasks/route.ts:130-222 | 400 or 404 MODULE_NOT_FOUND write nothing; otherwise one TODO task of the tenant is appended |
| TasksRoute.ForeignModuleRefused | src/app/api/tasks/route.ts:157-180 | a module only another tenant owns is not found |
| ModulesRoute.ParseModuleQuery | src/app/api/modules/route.ts:18-25 | refused iff an enum parameter is out of range; otherwise the filters as given and the page and limit rules |
| ModulesRoute.ModuleFilterUnique | src/app/api/modules/route.ts:54-58 | the filter a query asks for is unique |
| ModulesRoute.BuildModuleWhere | src/app/api/modules/route.ts:54-58 | exactly the truthy projectId/type/status/priority filters and no tenant key |
| ModulesRoute.ListModules | src/app/api/modules/route.ts:28-118 | 400 for an invalid query; otherwise the page of the tenant's matching modules; every listed module is the tenant's and matches |
| ModulesRoute.ListedModuleInProject | src/app/api/modules/route.ts:55 | with a project filter, every listed module is in that project |
| ModulesRoute.TotalIgnoresPaging | src/app/api/modules/route.ts:89 | the total does not depend on page and limit |
| ModulesRoute.ParseModule | src/app/api/modules/route.ts:8-15 | accepted iff each field passes its rule; name and projectId non-empty; type and priority in range |
| ModulesRoute.ParsedOptionalFields | src/app/api/modules/route.ts:10-14 | each optional field is taken iff present, with the body's value |
| ModulesRoute.ParsedDefaults | src/app/api/modules/route.ts:11-12 | type defaults to FEATURE and priority to MEDIUM; given values are kept |
| ModulesRoute.NameAndProjectRequired | src/app/api/modules/route.ts:9-13 | a body without name or projectId is refused |
| ModulesRoute.ModuleData | src/app/api/modules/route.ts:166-170 | the row carries name, type, priority and projectId and only module columns |
| ModulesRoute.ModuleDataOptional | src/app/api/modules/route.ts:166-168 | each optional column is present iff it was given |
| ModulesRoute.BodyCannotSetStatusOrTenant | src/app/api/modules/route.ts:166-170 | the body can set neither status nor tenantId |
| ModulesRoute.CreateModule | src/app/api/modules/route.ts:121-199 | 400 or 404 PROJECT_NOT_FOUND write nothing; otherwise one TODO module of the tenant is appended |
| ModulesRoute.ForeignProjectRefused | src/app/api/modules/route.ts:148-163 | a project only another tenant owns is not found |

## Left out

- Cryptography: `jsonwebtoken.sign` / `verify` and bcrypt are function parameters; signatures and expiry are not modelled, and nothing is assumed about `verify` beyond what a lemma states in its `requires`.
- zod's e-mail regular expression is a predicate parameter; zod's issue lists in 400 responses are not modelled (`details` is absent).
- `JSON.parse` of request bodies is an `Option<Json>` argument (None is the parse failure caught as 500); on the client it is a parser parameter.
- `Date.now()` in the register slug and the id generator of Prisma are parameters; timers (`setTimeout` waits, the 50-minute refresh interval, request timeouts and `AbortController`) are only numbers in the result or are not modelled.
- Concurrency: each request runs alone; the quota check-then-update race is not modelled.
- Prisma's `include` / `select` projections and `orderBy` are not modelled; listed rows come in table order.
- Store exceptions in the tasks and modules routes (their 500 catch) are not modelled. The tenant middleware, login, register and switch-tenant routes model a store that is unavailable for the whole request (`fault`: the first lookup throws) and, for register, a failed transaction (`txFault`).
- LoginRoute.Login, SwitchTenantRoute.SwitchTenant, RegisterRoute.Register: a store that answers the first lookups and then throws on a later one (login's `user.update`, switch-tenant's `user.update` or `findUnique`, register's slug lookup) is not modelled separately; the route answers 500 in those cases too.
- Permission.RolePermissions, Permission.HasPermission, UseAuth.ClientRolePermissions, UseAuth.HasPermission: a role named like an inherited object property (`constructor`, `toString`, `__proto__`) indexes a non-array in the source and `.includes` throws a TypeError; the model refuses such a role instead. Tokens the routes sign carry only the four table roles.
- ApiRequest.AttachTenant: a truthy `tenantId` that is not a string (a number, an object) is also copied into the header by the source; the model sets the header only for non-empty strings.
- `toLowerCase` and `parseInt`'s white space are ASCII and Unicode-space only as listed; non-ASCII case mapping is not modelled.
- JavaScript numbers are unbounded integers (counters, ids, timestamps) and exact reals (estimated hours); no floating-point rounding.
- Logging (`console.log` / `console.error`, including the `showLoading` and `showError` messages) and the redirect to `/login` are not modelled.
- The projects and requirements routes, `me`, `logout`, `test-auth`, the React pages, `useApi`, the other hooks, `server-request.ts` and `openai.ts` are not part of this model.
- The composition `withAuth(withTenant(handler))` of the list and create routes is modelled as the route handler given an authenticated tenant; each wrapper is modelled and proved on its own.
- The `login`, `register`, `logout`, `getCurrentUser` and `updateUser` functions of `useAuth` are not modelled beyond the `setAuthData` / `clearAuthData` they call.
- ApiRequest.ApiClient.Retry: interceptors are pure functions of their input, so every attempt sends the same request; a network that answers differently on a retry is modelled by passing the attempt number to `fetch`.
- TenantMiddleware.Repeat: repeated updates are stated for a fixed delta; updates with different deltas compose through `CheckAfterUpdate` one at a time.
