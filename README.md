# Route authorisation of the school portal's security configuration

`SecurityConfiguration.filterChain` builds one Spring Security filter chain.
Its `authorizeHttpRequests` block is an ordered table. Each step names request
matchers (a path pattern, sometimes tied to one HTTP method) and an outcome:
`permitAll()`, `hasRole` or `hasAnyRole` over the roles `TC` (teacher),
`STD` (student) and `ADMIN`. The table ends with `anyRequest().permitAll()`.
Spring tries the steps top to bottom and the first matching step decides. A
denied anonymous caller goes to `CustomAuthenticationEntryPoint`. A denied
authenticated caller goes to `CustomAccessDeniedHandler`.

The project has three modules:

- `PathMatching` (`path_matching.dfy`): the patterns. `Exact(p)` is one
  path. `Subtree(p)` is `p/**`, which covers `p` itself and every path
  `p/...` below it.
- `AccessPolicy` (`access_policy.dfy`): requests, rules and policies as
  datatypes. It holds the recursive first-match search `FirstMatch`, the
  access lookup `Lookup`, the role check `Authorize` and the verdict
  `Decide`. It also holds general lemmas about ordering: first match wins,
  and rules that do not match are skipped.
- `SecurityConfiguration` (`security_configuration.dfy`): the seven rules
  exactly as written and in source order, as the constant `FilterChain`.
  Each rule's coverage is restated as a plain condition. The decision is then
  proved for every route group.

How the code behaves, which the lemmas make explicit:

- GET `/api/attendance` is not in the TC/ADMIN rule. That rule covers only
  POST and PUT (lines 47-48). GET reaches the TC/STD rule at line 56, so a
  student's GET is permitted and an administrator's is denied. Other methods on
  `/api/attendance` (DELETE, PATCH, HEAD, …) match no rule and are permitted
  by `anyRequest().permitAll()`.
- `/api/admin/sign-in` and `/api/admin/sign-up` are public, although the
  later `/api/admin/**` rule requires ADMIN. Putting that rule first would
  lock them (`AdminRuleFirstWouldLockSignIn`).
- POST is the only public method on `/api/admin/refresh-token`. Every other
  method needs ADMIN.
- `/api/refresh-token` is exempt only for POST, but no later rule names it.
  So it is open under every method.
- `/api/logout` admits TC and STD only, so an administrator is denied there.
- Every path outside `/api` that is not public matches nothing and is
  permitted.

## Model

| member | source | states |
|---|---|---|
| PathMatching.InSubtreeIff | src/main/java/com/green/secondproject/common/config/security/SecurityConfiguration.java:35-36 | a `prefix/**` pattern matches exactly the prefix and the paths `prefix + "/" + rest` |
| PathMatching.ChildInSubtree | src/main/java/com/green/secondproject/common/config/security/SecurityConfiguration.java:46 | every path built as `prefix/rest` lies under `prefix/**` |
| PathMatching.InSubtreeNested | src/main/java/com/green/secondproject/common/config/security/SecurityConfiguration.java:45-60 | a path under `outer/inner/**` also lies under `outer/**`; with `outer` = `/api` this places every gated subtree of the table under `/api` |
| PathMatching.PatternMatches | src/main/java/com/green/secondproject/common/config/security/SecurityConfiguration.java:35-60 | `mvc.pattern(path)`'s path test: an exact path matches only itself, `prefix/**` matches its subtree, and the uninterpreted `**exception**` matches nothing |
| AccessPolicy.MatcherMatches | src/main/java/com/green/secondproject/common/config/security/SecurityConfiguration.java:35-60 | `mvc.pattern(method, path)` matches only requests with that method and a matching path; `mvc.pattern(path)` matches any method |
| AccessPolicy.RuleMatches | src/main/java/com/green/secondproject/common/config/security/SecurityConfiguration.java:34-60 | a `requestMatchers(m1, ..., mk)` step applies when any one of its matchers matches |
| AccessPolicy.AllowedRoles | src/main/java/com/green/secondproject/common/config/security/SecurityConfiguration.java:48-60 | `hasRole(r)` admits the role set `{r}` and `hasAnyRole(r1, ...)` the set of its arguments |
| AccessPolicy.FirstMatch | src/main/java/com/green/secondproject/common/config/security/SecurityConfiguration.java:33-61 | the index returned is a matching rule with no matching rule before it; none is returned exactly when no rule matches |
| AccessPolicy.Lookup | src/main/java/com/green/secondproject/common/config/security/SecurityConfiguration.java:33-61 | the governing access is that of the first matching rule, or the `anyRequest()` access when no rule matches |
| AccessPolicy.Authorize | src/main/java/com/green/secondproject/common/config/security/SecurityConfiguration.java:44-68 | Permit iff the access is public or the caller holds an allowed role; entry-point outcome iff the access is gated and the caller is anonymous; access-denied iff gated and authenticated with a role outside the set |
| AccessPolicy.Decide | src/main/java/com/green/secondproject/common/config/security/SecurityConfiguration.java:61-68 | an anonymous caller is permitted exactly on public access and never gets access-denied; an authenticated caller never gets the entry-point outcome; with no matching rule the `anyRequest()` access decides |
| AccessPolicy.HasRoleIsHasAnyRoleOfOne | src/main/java/com/green/secondproject/common/config/security/SecurityConfiguration.java:51-52 | `hasRole(r)` decides like `hasAnyRole(r)` |
| AccessPolicy.AppendedRulesAreShadowed | src/main/java/com/green/secondproject/common/config/security/SecurityConfiguration.java:33-61 | once a rule matches, rules appended after it never change the lookup (first match wins) |
| AccessPolicy.NonMatchingRulesAreSkipped | src/main/java/com/green/secondproject/common/config/security/SecurityConfiguration.java:33-61 | rules that do not match can be removed from the front without changing the lookup |
| AccessPolicy.SomeRoleIsAdmitted | src/main/java/com/green/secondproject/common/config/security/SecurityConfiguration.java:48-60 | a gated access with a non-empty role set admits some authenticated role |
| SecurityConfiguration.PublicRule | src/main/java/com/green/secondproject/common/config/security/SecurityConfiguration.java:34-44 | the fifteen public matchers in source order, with `permitAll()` |
| SecurityConfiguration.TeacherAdminRule | src/main/java/com/green/secondproject/common/config/security/SecurityConfiguration.java:45-48 | the teacher subtree and POST and PUT on attendance, with `hasAnyRole("TC", "ADMIN")` |
| SecurityConfiguration.StudentRule | src/main/java/com/green/secondproject/common/config/security/SecurityConfiguration.java:49-51 | the student and meal subtrees, with `hasRole("STD")` |
| SecurityConfiguration.AdminRule | src/main/java/com/green/secondproject/common/config/security/SecurityConfiguration.java:52 | the admin subtree, with `hasRole("ADMIN")` |
| SecurityConfiguration.TeacherStudentRule | src/main/java/com/green/secondproject/common/config/security/SecurityConfiguration.java:53-56 | mypage, timetable, subject, logout and GET on attendance, with `hasAnyRole("TC", "STD")` |
| SecurityConfiguration.ScheduleRule | src/main/java/com/green/secondproject/common/config/security/SecurityConfiguration.java:57 | `/api/schedule`, with `hasAnyRole("TC", "ADMIN")` |
| SecurityConfiguration.AnyRoleRule | src/main/java/com/green/secondproject/common/config/security/SecurityConfiguration.java:58-60 | `/api/side` and the header subtree, with `hasAnyRole("TC", "STD", "ADMIN")` |
| SecurityConfiguration.FilterChain | src/main/java/com/green/secondproject/common/config/security/SecurityConfiguration.java:33-61 | the seven rules in source order, then `anyRequest().permitAll()` |
| SecurityConfiguration.PublicRuleCovers | src/main/java/com/green/secondproject/common/config/security/SecurityConfiguration.java:34-44 | the public rule matches exactly the nine listed paths, the swagger-ui, api-docs and static subtrees, and POST on the two refresh-token paths |
| SecurityConfiguration.TeacherAdminRuleCovers | src/main/java/com/green/secondproject/common/config/security/SecurityConfiguration.java:45-48 | the TC/ADMIN rule matches exactly the teacher subtree and POST or PUT on attendance |
| SecurityConfiguration.StudentRuleCovers | src/main/java/com/green/secondproject/common/config/security/SecurityConfiguration.java:49-51 | the STD rule matches exactly the student and meal subtrees |
| SecurityConfiguration.AdminRuleCovers | src/main/java/com/green/secondproject/common/config/security/SecurityConfiguration.java:52 | the ADMIN rule matches exactly the admin subtree |
| SecurityConfiguration.TeacherStudentRuleCovers | src/main/java/com/green/secondproject/common/config/security/SecurityConfiguration.java:53-56 | the TC/STD rule matches exactly mypage, timetable, subject, logout and GET on attendance |
| SecurityConfiguration.ScheduleRuleCovers | src/main/java/com/green/secondproject/common/config/security/SecurityConfiguration.java:57 | the schedule rule matches exactly `/api/schedule` under any method |
| SecurityConfiguration.AnyRoleRuleCovers | src/main/java/com/green/secondproject/common/config/security/SecurityConfiguration.java:58-60 | the last gated rule matches exactly `/api/side` and the header subtree |
| SecurityConfiguration.FilterChainLookup | src/main/java/com/green/secondproject/common/config/security/SecurityConfiguration.java:33-61 | the access of any request is that of the first route group it falls in, tried in source order, else `permitAll()` |
| SecurityConfiguration.PublicEndpointsArePermitted | src/main/java/com/green/secondproject/common/config/security/SecurityConfiguration.java:34-44 | every public endpoint is permitted for every caller, anonymous included |
| SecurityConfiguration.AdminSignInIsPublicDespiteAdminArea | src/main/java/com/green/secondproject/common/config/security/SecurityConfiguration.java:39-52 | admin sign-in and sign-up are matched by the ADMIN rule too, yet are permitted for everyone |
| SecurityConfiguration.AdminRuleFirstWouldLockSignIn | src/main/java/com/green/secondproject/common/config/security/SecurityConfiguration.java:39-52 | with the ADMIN rule moved first, admin sign-in and sign-up would be permitted only for ADMIN; as written they are permitted for everyone |
| SecurityConfiguration.AdminRefreshTokenExemptionIsPostOnly | src/main/java/com/green/secondproject/common/config/security/SecurityConfiguration.java:43-52 | POST on the admin refresh-token path is permitted for everyone; any other method is permitted iff the caller is ADMIN |
| SecurityConfiguration.AdminRefreshTokenNeedsAdmin | src/main/java/com/green/secondproject/common/config/security/SecurityConfiguration.java:43-52 | a non-POST request to the admin refresh-token path is governed by `hasRole("ADMIN")` |
| SecurityConfiguration.RefreshTokenIsOpenUnderEveryMethod | src/main/java/com/green/secondproject/common/config/security/SecurityConfiguration.java:42-61 | `/api/refresh-token` is permitted under every method for every caller |
| SecurityConfiguration.AttendanceWritesAdmitTeacherAndAdmin | src/main/java/com/green/secondproject/common/config/security/SecurityConfiguration.java:47-48 | POST and PUT on attendance are permitted iff the caller is TC or ADMIN; a student is denied |
| SecurityConfiguration.AttendanceReadAdmitsTeacherAndStudent | src/main/java/com/green/secondproject/common/config/security/SecurityConfiguration.java:47-56 | GET on attendance is permitted iff the caller is TC or STD; ADMIN is denied |
| SecurityConfiguration.AttendanceOtherMethodsFallThrough | src/main/java/com/green/secondproject/common/config/security/SecurityConfiguration.java:47-61 | other methods on attendance match no rule and are permitted |
| SecurityConfiguration.TeacherAreaAdmitsTeacherAndAdmin | src/main/java/com/green/secondproject/common/config/security/SecurityConfiguration.java:46-48 | everything under `/api/teacher`, any method, is permitted iff the caller is TC or ADMIN |
| SecurityConfiguration.StudentAndMealAreasAdmitOnlyStudents | src/main/java/com/green/secondproject/common/config/security/SecurityConfiguration.java:49-51 | everything under `/api/student` and `/api/meal` is permitted iff the caller is STD; TC and ADMIN are denied |
| SecurityConfiguration.AdminAreaAdmitsOnlyAdmin | src/main/java/com/green/secondproject/common/config/security/SecurityConfiguration.java:52 | under `/api/admin`, apart from the public exemptions, a request is permitted iff the caller is ADMIN; a student is denied |
| SecurityConfiguration.TeacherStudentRoutesAdmitTeacherAndStudent | src/main/java/com/green/secondproject/common/config/security/SecurityConfiguration.java:53-56 | mypage, timetable, subject and logout are permitted iff the caller is TC or STD; ADMIN is denied |
| SecurityConfiguration.TeacherStudentRoutesSkipEarlierRules | src/main/java/com/green/secondproject/common/config/security/SecurityConfiguration.java:34-52 | those routes match none of the four rules above the TC/STD rule |
| SecurityConfiguration.ScheduleAdmitsTeacherAndAdmin | src/main/java/com/green/secondproject/common/config/security/SecurityConfiguration.java:57 | `/api/schedule` is permitted iff the caller is TC or ADMIN |
| SecurityConfiguration.SideAndHeaderAdmitAnyRole | src/main/java/com/green/secondproject/common/config/security/SecurityConfiguration.java:58-60 | `/api/side` and the header subtree are permitted iff the caller is authenticated, with any role; an anonymous caller gets the entry-point outcome |
| SecurityConfiguration.OutsideApiIsPermitted | src/main/java/com/green/secondproject/common/config/security/SecurityConfiguration.java:45-61 | a request outside `/api` is permitted for every caller |
| SecurityConfiguration.OutsideApiMissesEarlierGatedRules | src/main/java/com/green/secondproject/common/config/security/SecurityConfiguration.java:45-52 | no path outside `/api` falls in the TC/ADMIN, STD or ADMIN rule |
| SecurityConfiguration.OutsideApiMissesLaterGatedRules | src/main/java/com/green/secondproject/common/config/security/SecurityConfiguration.java:53-60 | no path outside `/api` falls in the TC/STD, schedule or any-role rule |
| SecurityConfiguration.EveryRouteAdmitsSomeRole | src/main/java/com/green/secondproject/common/config/security/SecurityConfiguration.java:33-61 | for every request some authenticated role is permitted; no route is closed to everyone |
| SecurityConfiguration.UnmatchedRequestsArePermitted | src/main/java/com/green/secondproject/common/config/security/SecurityConfiguration.java:61 | a request that matches no rule is permitted for every caller |

## Left out

- The JWT authentication filter, the token provider and the Redis-backed token service (lines 26-27, 70). Their source is not part of this model. The model takes the resolved caller as a `Principal` parameter: anonymous, or authenticated with exactly one role.
- The bodies of the responses that `CustomAccessDeniedHandler` and `CustomAuthenticationEntryPoint` write (lines 66-68). Those classes are not part of this model. Only which of the two outcomes is chosen is modelled.
- AccessPolicy.Decide: covers only requests that reach the authorisation step. The CORS filter registered at line 32 runs before it and answers CORS pre-flight requests (OPTIONS with `Origin` and `Access-Control-Request-Method`) itself, so the table never sees them. The model would send an anonymous pre-flight to a gated route to the entry-point outcome.
- The CORS configuration (lines 84-96). Its meaning depends on Spring's origin checking. It sets both the origin pattern `*` and a fixed origin list (lines 87-88), and how the two combine is up to the framework.
- The stateless session policy and the disabled `httpBasic` and CSRF (lines 63-65). They are framework switches with no decision logic.
- Full `MvcRequestMatcher` and `PathPattern` semantics: trailing-slash matching, servlet-path handling, URL decoding, and wildcards other than a trailing `/**`.
- PathMatching.PatternMatches: the pattern `**exception**` (line 41) is kept in the table as `Opaque` and matches nothing. So a path it would match under Spring's rules is decided by the later rules here.
- The `MvcRequestMatcher.Builder` bean (lines 75-80) and the commented-out `webSecurityCustomizer` (lines 100-106).
- Concurrent handling of requests; each decision is a pure function of one request.
