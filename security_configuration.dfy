// The route-authorisation table that `SecurityConfiguration.filterChain` builds,
// rule by rule in the order of the builder chain, and what it decides for each
// group of routes.
module SecurityConfiguration {
  import opened PathMatching
  import opened AccessPolicy

  function Any(pattern: PathPattern): RequestMatcher { RequestMatcher(None, pattern) }
  function On(verb: HttpMethod, pattern: PathPattern): RequestMatcher { RequestMatcher(Some(verb), pattern) }

  // ----- The table, in source order -----

  /** Documentation, static assets, sign-in/sign-up, confirmation and token refresh. */
  const PublicRule := Rule([
      Any(Exact("/swagger.html")), Any(Subtree("/swagger-ui")), Any(Subtree("/v3/api-docs")),
      Any(Exact("/index.html")), Any(Exact("/")), Any(Subtree("/static")),
      Any(Exact("/api/sign-in")), Any(Exact("/api/sign-up")),
      Any(Exact("/api/admin/sign-in")), Any(Exact("/api/admin/sign-up")),
      Any(Exact("/api/mail-confirm")), Any(Exact("/api/code-confirm")),
      Any(Opaque("**exception**")),
      On(POST, Exact("/api/refresh-token")),
      On(POST, Exact("/api/admin/refresh-token"))
    ], PermitAll)

  const TeacherAdminRule := Rule([
      Any(Subtree("/api/teacher")),
      On(POST, Exact("/api/attendance")),
      On(PUT, Exact("/api/attendance"))
    ], HasAnyRole({TC, ADMIN}))

  const StudentRule := Rule([Any(Subtree("/api/student")), Any(Subtree("/api/meal"))], HasRole(STD))

  const AdminRule := Rule([Any(Subtree("/api/admin"))], HasRole(ADMIN))

  const TeacherStudentRule := Rule([
      Any(Subtree("/api/mypage")), Any(Exact("/api/timetable")),
      Any(Subtree("/api/subject")), Any(Exact("/api/logout")),
      On(GET, Exact("/api/attendance"))
    ], HasAnyRole({TC, STD}))

  const ScheduleRule := Rule([Any(Exact("/api/schedule"))], HasAnyRole({TC, ADMIN}))

  const AnyRoleRule := Rule([Any(Exact("/api/side")), Any(Subtree("/api/header"))], HasAnyRole({TC, STD, ADMIN}))

  /** The chain as built: seven rules, then `anyRequest().permitAll()`. */
  const FilterChain := Policy(
    [PublicRule, TeacherAdminRule, StudentRule, AdminRule, TeacherStudentRule, ScheduleRule, AnyRoleRule],
    PermitAll)

  // ----- Which requests each rule covers, read as plain conditions -----

  predicate IsPublicEndpoint(verb: HttpMethod, path: string) {
    path in {"/swagger.html", "/index.html", "/", "/api/sign-in", "/api/sign-up",
             "/api/admin/sign-in", "/api/admin/sign-up", "/api/mail-confirm", "/api/code-confirm"}
    || InSubtree(path, "/swagger-ui") || InSubtree(path, "/v3/api-docs") || InSubtree(path, "/static")
    || (verb == POST && (path == "/api/refresh-token" || path == "/api/admin/refresh-token"))
  }

  predicate IsTeacherAdminRoute(verb: HttpMethod, path: string) {
    InSubtree(path, "/api/teacher") || (path == "/api/attendance" && (verb == POST || verb == PUT))
  }

  predicate IsStudentRoute(path: string) {
    InSubtree(path, "/api/student") || InSubtree(path, "/api/meal")
  }

  predicate IsTeacherStudentRoute(verb: HttpMethod, path: string) {
    InSubtree(path, "/api/mypage") || path == "/api/timetable" || InSubtree(path, "/api/subject")
    || path == "/api/logout" || (path == "/api/attendance" && verb == GET)
  }

  predicate IsAnyRoleRoute(path: string) {
    path == "/api/side" || InSubtree(path, "/api/header")
  }

  lemma PublicRuleCovers(verb: HttpMethod, path: string)
    ensures RuleMatches(PublicRule, verb, path) <==> IsPublicEndpoint(verb, path)
  {
    if RuleMatches(PublicRule, verb, path) {
      PublicRuleMatchesOnlyPublicEndpoints(verb, path);
    }
    if IsPublicEndpoint(verb, path) {
      PublicEndpointsMatchPublicRule(verb, path);
    }
  }

  lemma PublicRuleMatchesOnlyPublicEndpoints(verb: HttpMethod, path: string)
    requires RuleMatches(PublicRule, verb, path)
    ensures IsPublicEndpoint(verb, path)
  {
    var ms := PublicRule.matchers;
    var i :| 0 <= i < |ms| && MatcherMatches(ms[i], verb, path);
    if i < 3 { assert i in {0, 1, 2}; }
    else if i < 6 { assert i in {3, 4, 5}; }
    else if i < 9 { assert i in {6, 7, 8}; }
    else if i < 12 { assert i in {9, 10, 11}; }
    else { assert i in {12, 13, 14}; }
  }

  lemma PublicEndpointsMatchPublicRule(verb: HttpMethod, path: string)
    requires IsPublicEndpoint(verb, path)
    ensures RuleMatches(PublicRule, verb, path)
  {
    var ms := PublicRule.matchers;
    if path in {"/swagger.html", "/index.html", "/", "/api/sign-in", "/api/sign-up"} {
      if path == "/swagger.html" { assert MatcherMatches(ms[0], verb, path); }
      else if path == "/index.html" { assert MatcherMatches(ms[3], verb, path); }
      else if path == "/" { assert MatcherMatches(ms[4], verb, path); }
      else if path == "/api/sign-in" { assert MatcherMatches(ms[6], verb, path); }
      else { assert MatcherMatches(ms[7], verb, path); }
    } else if path in {"/api/admin/sign-in", "/api/admin/sign-up", "/api/mail-confirm", "/api/code-confirm"} {
      if path == "/api/admin/sign-in" { assert MatcherMatches(ms[8], verb, path); }
      else if path == "/api/admin/sign-up" { assert MatcherMatches(ms[9], verb, path); }
      else if path == "/api/mail-confirm" { assert MatcherMatches(ms[10], verb, path); }
      else { assert MatcherMatches(ms[11], verb, path); }
    } else if InSubtree(path, "/swagger-ui") { assert MatcherMatches(ms[1], verb, path); }
    else if InSubtree(path, "/v3/api-docs") { assert MatcherMatches(ms[2], verb, path); }
    else if InSubtree(path, "/static") { assert MatcherMatches(ms[5], verb, path); }
    else if path == "/api/refresh-token" { assert MatcherMatches(ms[13], verb, path); }
    else { assert MatcherMatches(ms[14], verb, path); }
  }

  lemma TeacherAdminRuleCovers(verb: HttpMethod, path: string)
    ensures RuleMatches(TeacherAdminRule, verb, path) <==> IsTeacherAdminRoute(verb, path)
  {
    var ms := TeacherAdminRule.matchers;
    if RuleMatches(TeacherAdminRule, verb, path) {
      var i :| 0 <= i < |ms| && MatcherMatches(ms[i], verb, path);
      assert i in {0, 1, 2};
    }
    if IsTeacherAdminRoute(verb, path) {
      if InSubtree(path, "/api/teacher") { assert MatcherMatches(ms[0], verb, path); }
      else if verb == POST { assert MatcherMatches(ms[1], verb, path); }
      else { assert MatcherMatches(ms[2], verb, path); }
    }
  }

  lemma StudentRuleCovers(verb: HttpMethod, path: string)
    ensures RuleMatches(StudentRule, verb, path) <==> IsStudentRoute(path)
  {
    var ms := StudentRule.matchers;
    if RuleMatches(StudentRule, verb, path) {
      var i :| 0 <= i < |ms| && MatcherMatches(ms[i], verb, path);
      assert i in {0, 1};
    }
    if IsStudentRoute(path) {
      if InSubtree(path, "/api/student") { assert MatcherMatches(ms[0], verb, path); }
      else { assert MatcherMatches(ms[1], verb, path); }
    }
  }

  lemma AdminRuleCovers(verb: HttpMethod, path: string)
    ensures RuleMatches(AdminRule, verb, path) <==> InSubtree(path, "/api/admin")
  {
    if InSubtree(path, "/api/admin") {
      assert MatcherMatches(AdminRule.matchers[0], verb, path);
    }
  }

  lemma TeacherStudentRuleCovers(verb: HttpMethod, path: string)
    ensures RuleMatches(TeacherStudentRule, verb, path) <==> IsTeacherStudentRoute(verb, path)
  {
    var ms := TeacherStudentRule.matchers;
    if RuleMatches(TeacherStudentRule, verb, path) {
      var i :| 0 <= i < |ms| && MatcherMatches(ms[i], verb, path);
      assert i in {0, 1, 2, 3, 4};
    }
    if IsTeacherStudentRoute(verb, path) {
      if InSubtree(path, "/api/mypage") { assert MatcherMatches(ms[0], verb, path); }
      else if path == "/api/timetable" { assert MatcherMatches(ms[1], verb, path); }
      else if InSubtree(path, "/api/subject") { assert MatcherMatches(ms[2], verb, path); }
      else if path == "/api/logout" { assert MatcherMatches(ms[3], verb, path); }
      else { assert MatcherMatches(ms[4], verb, path); }
    }
  }

  lemma ScheduleRuleCovers(verb: HttpMethod, path: string)
    ensures RuleMatches(ScheduleRule, verb, path) <==> path == "/api/schedule"
  {
    if path == "/api/schedule" {
      assert MatcherMatches(ScheduleRule.matchers[0], verb, path);
    }
  }

  lemma AnyRoleRuleCovers(verb: HttpMethod, path: string)
    ensures RuleMatches(AnyRoleRule, verb, path) <==> IsAnyRoleRoute(path)
  {
    var ms := AnyRoleRule.matchers;
    if RuleMatches(AnyRoleRule, verb, path) {
      var i :| 0 <= i < |ms| && MatcherMatches(ms[i], verb, path);
      assert i in {0, 1};
    }
    if IsAnyRoleRoute(path) {
      if path == "/api/side" { assert MatcherMatches(ms[0], verb, path); }
      else { assert MatcherMatches(ms[1], verb, path); }
    }
  }

  /**
   * The table read top to bottom: the access governing a request is that of the
   * first group it falls in, and `permitAll()` when it falls in none.
   */
  lemma FilterChainLookup(verb: HttpMethod, path: string)
    ensures Lookup(FilterChain, verb, path) ==
      if IsPublicEndpoint(verb, path) then PermitAll
      else if IsTeacherAdminRoute(verb, path) then HasAnyRole({TC, ADMIN})
      else if IsStudentRoute(path) then HasRole(STD)
      else if InSubtree(path, "/api/admin") then HasRole(ADMIN)
      else if IsTeacherStudentRoute(verb, path) then HasAnyRole({TC, STD})
      else if path == "/api/schedule" then HasAnyRole({TC, ADMIN})
      else if IsAnyRoleRoute(path) then HasAnyRole({TC, STD, ADMIN})
      else PermitAll
  {
    PublicRuleCovers(verb, path);
    TeacherAdminRuleCovers(verb, path);
    StudentRuleCovers(verb, path);
    AdminRuleCovers(verb, path);
    TeacherStudentRuleCovers(verb, path);
    ScheduleRuleCovers(verb, path);
    AnyRoleRuleCovers(verb, path);
    var rules := FilterChain.rules;
    match FirstMatch(rules, verb, path)
    case None =>
      assert !RuleMatches(rules[0], verb, path) && !RuleMatches(rules[1], verb, path);
      assert !RuleMatches(rules[2], verb, path) && !RuleMatches(rules[3], verb, path);
      assert !RuleMatches(rules[4], verb, path) && !RuleMatches(rules[5], verb, path);
      assert !RuleMatches(rules[6], verb, path);
    case Some(k) =>
      assert k in {0, 1, 2, 3, 4, 5, 6};
      assert forall j | 0 <= j < k :: !RuleMatches(rules[j], verb, path);
      if k > 0 { assert !RuleMatches(rules[0], verb, path); }
      if k > 1 { assert !RuleMatches(rules[1], verb, path); }
      if k > 2 { assert !RuleMatches(rules[2], verb, path); }
      if k > 3 { assert !RuleMatches(rules[3], verb, path); }
      if k > 4 { assert !RuleMatches(rules[4], verb, path); }
      if k > 5 { assert !RuleMatches(rules[5], verb, path); }
  }

  // ----- What the table guarantees, route group by route group -----

  /** The principal is authenticated with one of `roles`. */
  predicate HoldsOneOf(principal: Principal, roles: set<Role>) {
    principal.Authenticated? && principal.role in roles
  }

  // Below "/api/", the characters at positions 5, 6 and 7 (the first letters of
  // the next segment) tell the table's patterns apart. KeyChars exposes them for
  // a path under a given prefix; each Misses... lemma says which characters keep
  // a path out of one rule.

  lemma KeyChars(path: string, prefix: string)
    requires InSubtree(path, prefix) && |prefix| >= 8
    ensures |path| >= |prefix|
    ensures path[1] == prefix[1] && path[5] == prefix[5] && path[6] == prefix[6] && path[7] == prefix[7]
  {
    InSubtreeCharAt(path, prefix, 1);
    InSubtreeCharAt(path, prefix, 5);
    InSubtreeCharAt(path, prefix, 6);
    InSubtreeCharAt(path, prefix, 7);
  }

  lemma MissesPublicRule(verb: HttpMethod, path: string)
    requires |path| >= 8 && path[1] == 'a'                          // "/a...": not the docs or static paths
    requires !(path[5] == 's' && path[6] == 'i' && path[7] == 'g')  // not /api/sig... (sign-in, sign-up)
    requires !(path[5] == 'a' && path[6] == 'd')                    // not /api/ad... (admin exemptions)
    requires !(path[5] == 'm' && path[6] == 'a')                    // not /api/ma... (mail-confirm)
    requires path[5] != 'c' && path[5] != 'r'                       // not /api/c... or /api/r... (code, refresh)
    ensures !IsPublicEndpoint(verb, path)
  {
  }

  lemma AdminAreaMissesPublicRule(verb: HttpMethod, path: string)
    requires InSubtree(path, "/api/admin")
    requires path != "/api/admin/sign-in" && path != "/api/admin/sign-up"
    requires !(verb == POST && path == "/api/admin/refresh-token")
    ensures !IsPublicEndpoint(verb, path)
  {
    KeyChars(path, "/api/admin");
  }

  lemma MissesTeacherAdminRule(verb: HttpMethod, path: string)
    requires |path| >= 8
    requires !(path[5] == 't' && path[6] == 'e')                                  // not /api/te... (teacher)
    requires !(path[5] == 'a' && path[6] == 't') || (verb != POST && verb != PUT) // not a write to /api/at...
    ensures !IsTeacherAdminRoute(verb, path)
  {
  }

  lemma MissesStudentRule(path: string)
    requires |path| >= 8
    requires !(path[5] == 's' && path[6] == 't')  // not /api/st... (student)
    requires !(path[5] == 'm' && path[6] == 'e')  // not /api/me... (meal)
    ensures !IsStudentRoute(path)
  {
  }

  lemma MissesAdminRule(path: string)
    requires |path| >= 8
    requires !(path[5] == 'a' && path[6] == 'd')  // not /api/ad... (admin)
    ensures !InSubtree(path, "/api/admin")
  {
  }

  lemma MissesTeacherStudentRule(verb: HttpMethod, path: string)
    requires |path| >= 8
    requires !(path[5] == 'm' && path[6] == 'y')                 // not /api/my... (mypage)
    requires !(path[5] == 't' && path[6] == 'i')                 // not /api/ti... (timetable)
    requires !(path[5] == 's' && path[6] == 'u')                 // not /api/su... (subject)
    requires !(path[5] == 'l' && path[6] == 'o')                 // not /api/lo... (logout)
    requires !(path[5] == 'a' && path[6] == 't') || verb != GET  // not a read of /api/at... (attendance)
    ensures !IsTeacherStudentRoute(verb, path)
  {
  }

  lemma MissesScheduleRule(path: string)
    requires |path| >= 8
    requires !(path[5] == 's' && path[6] == 'c')  // not /api/sc... (schedule)
    ensures path != "/api/schedule"
  {
  }

  lemma MissesAnyRoleRule(path: string)
    requires |path| >= 8
    requires !(path[5] == 's' && path[6] == 'i' && path[7] == 'd')  // not /api/sid... (side)
    requires !(path[5] == 'h' && path[6] == 'e')                    // not /api/he... (header)
    ensures !IsAnyRoleRoute(path)
  {
  }

  /** Every listed public endpoint is open to every caller, anonymous ones included. */
  lemma PublicEndpointsArePermitted(verb: HttpMethod, path: string, principal: Principal)
    requires IsPublicEndpoint(verb, path)
    ensures Decide(FilterChain, verb, path, principal) == Permit
  {
    FilterChainLookup(verb, path);
  }

  /**
   * Admin sign-in and sign-up are also matched by the later admin-area rule,
   * which requires ADMIN; the earlier public rule wins, so they are open to all.
   */
  lemma AdminSignInIsPublicDespiteAdminArea(verb: HttpMethod, path: string, principal: Principal)
    requires path == "/api/admin/sign-in" || path == "/api/admin/sign-up"
    ensures RuleMatches(AdminRule, verb, path)
    ensures Decide(FilterChain, verb, path, principal) == Permit
  {
    assert InSubtree(path, "/api/admin") by {
      ChildInSubtree("/api/admin", "sign-in");
      ChildInSubtree("/api/admin", "sign-up");
    }
    AdminRuleCovers(verb, path);
    PublicEndpointsArePermitted(verb, path, principal);
  }

  /**
   * Had the admin rule come first, admin sign-in and sign-up would need the
   * ADMIN role: order decides.
   */
  lemma AdminRuleFirstWouldLockSignIn(verb: HttpMethod, path: string, principal: Principal)
    requires path == "/api/admin/sign-in" || path == "/api/admin/sign-up"
    ensures (Decide(Policy([AdminRule] + FilterChain.rules, PermitAll), verb, path, principal)
             == Permit) <==> principal == Authenticated(ADMIN)
    ensures Decide(FilterChain, verb, path, principal) == Permit
  {
    AdminSignInIsPublicDespiteAdminArea(verb, path, principal);
    assert FirstMatching([AdminRule] + FilterChain.rules, 0, verb, path);
  }

  /** Only POST is exempt on the admin refresh-token path; any other method needs ADMIN. */
  lemma AdminRefreshTokenExemptionIsPostOnly(verb: HttpMethod, principal: Principal)
    ensures Decide(FilterChain, POST, "/api/admin/refresh-token", principal) == Permit
    ensures verb != POST ==>
            (Decide(FilterChain, verb, "/api/admin/refresh-token", principal) == Permit
             <==> principal == Authenticated(ADMIN))
  {
    var path := "/api/admin/refresh-token";
    PublicEndpointsArePermitted(POST, path, principal);
    if verb != POST {
      AdminRefreshTokenNeedsAdmin(verb);
    }
  }

  lemma AdminRefreshTokenNeedsAdmin(verb: HttpMethod)
    requires verb != POST
    ensures Lookup(FilterChain, verb, "/api/admin/refresh-token") == HasRole(ADMIN)
  {
    var path := "/api/admin/refresh-token";
    assert path[1] == 'a' && path[5] == 'a' && path[6] == 'd' && path[7] == 'm';
    assert InSubtree(path, "/api/admin") by { ChildInSubtree("/api/admin", "refresh-token"); }
    AdminAreaMissesPublicRule(verb, path);
    MissesTeacherAdminRule(verb, path);
    MissesStudentRule(path);
    FilterChainLookup(verb, path);
  }

  /**
   * The user refresh-token path is exempt for POST, and no later rule names it,
   * so every other method reaches `anyRequest().permitAll()`: it is open under
   * every method.
   */
  lemma RefreshTokenIsOpenUnderEveryMethod(verb: HttpMethod, principal: Principal)
    ensures Decide(FilterChain, verb, "/api/refresh-token", principal) == Permit
  {
    var path := "/api/refresh-token";
    if verb == POST {
      PublicEndpointsArePermitted(verb, path, principal);
    } else {
      assert path[1] == 'a' && path[5] == 'r' && path[6] == 'e' && path[7] == 'f';
      assert !IsPublicEndpoint(verb, path);
      MissesTeacherAdminRule(verb, path);
      MissesStudentRule(path);
      MissesAdminRule(path);
      MissesTeacherStudentRule(verb, path);
      MissesScheduleRule(path);
      MissesAnyRoleRule(path);
      assert Lookup(FilterChain, verb, path) == PermitAll by { FilterChainLookup(verb, path); }
    }
  }

  /** POST and PUT on attendance admit exactly TC and ADMIN, so a student is denied. */
  lemma AttendanceWritesAdmitTeacherAndAdmin(verb: HttpMethod, principal: Principal)
    requires verb == POST || verb == PUT
    ensures Decide(FilterChain, verb, "/api/attendance", principal) == Permit
            <==> HoldsOneOf(principal, {TC, ADMIN})
    ensures principal == Authenticated(STD) ==>
            Decide(FilterChain, verb, "/api/attendance", principal) == AccessDenied
  {
    var path := "/api/attendance";
    assert path[1] == 'a' && path[5] == 'a' && path[6] == 't' && path[7] == 't';
    MissesPublicRule(verb, path);
    assert Lookup(FilterChain, verb, path) == HasAnyRole({TC, ADMIN}) by { FilterChainLookup(verb, path); }
  }

  /**
   * GET on attendance is not in the TC/ADMIN rule; it falls through to the
   * TC/STD rule, so a student is permitted and an administrator denied.
   */
  lemma AttendanceReadAdmitsTeacherAndStudent(principal: Principal)
    ensures Decide(FilterChain, GET, "/api/attendance", principal) == Permit
            <==> HoldsOneOf(principal, {TC, STD})
    ensures Decide(FilterChain, GET, "/api/attendance", Authenticated(ADMIN)) == AccessDenied
  {
    var path := "/api/attendance";
    assert path[1] == 'a' && path[5] == 'a' && path[6] == 't' && path[7] == 't';
    MissesPublicRule(GET, path);
    MissesTeacherAdminRule(GET, path);
    MissesStudentRule(path);
    MissesAdminRule(path);
    assert Lookup(FilterChain, GET, path) == HasAnyRole({TC, STD}) by { FilterChainLookup(GET, path); }
  }

  /** Methods other than GET, POST and PUT on attendance match no rule and are permitted. */
  lemma AttendanceOtherMethodsFallThrough(verb: HttpMethod, principal: Principal)
    requires verb != GET && verb != POST && verb != PUT
    ensures NoRuleMatches(FilterChain.rules, verb, "/api/attendance")
    ensures Decide(FilterChain, verb, "/api/attendance", principal) == Permit
  {
    var path := "/api/attendance";
    assert path[1] == 'a' && path[5] == 'a' && path[6] == 't' && path[7] == 't';
    assert !RuleMatches(PublicRule, verb, path) by {
      MissesPublicRule(verb, path);
      PublicRuleCovers(verb, path);
    }
    assert !RuleMatches(TeacherAdminRule, verb, path) by {
      MissesTeacherAdminRule(verb, path);
      TeacherAdminRuleCovers(verb, path);
    }
    assert !RuleMatches(StudentRule, verb, path) by {
      MissesStudentRule(path);
      StudentRuleCovers(verb, path);
    }
    assert !RuleMatches(AdminRule, verb, path) by {
      MissesAdminRule(path);
      AdminRuleCovers(verb, path);
    }
    assert !RuleMatches(TeacherStudentRule, verb, path) by {
      MissesTeacherStudentRule(verb, path);
      TeacherStudentRuleCovers(verb, path);
    }
    assert !RuleMatches(ScheduleRule, verb, path) by {
      MissesScheduleRule(path);
      ScheduleRuleCovers(verb, path);
    }
    assert !RuleMatches(AnyRoleRule, verb, path) by {
      MissesAnyRoleRule(path);
      AnyRoleRuleCovers(verb, path);
    }
    var rules := FilterChain.rules;
    forall j | 0 <= j < |rules| ensures !RuleMatches(rules[j], verb, path) {
      assert j in {0, 1, 2, 3, 4, 5, 6};
    }
  }

  /** Everything under `/api/teacher`, whatever the method, admits exactly TC and ADMIN. */
  lemma TeacherAreaAdmitsTeacherAndAdmin(verb: HttpMethod, path: string, principal: Principal)
    requires InSubtree(path, "/api/teacher")
    ensures Decide(FilterChain, verb, path, principal) == Permit <==> HoldsOneOf(principal, {TC, ADMIN})
  {
    KeyChars(path, "/api/teacher");
    MissesPublicRule(verb, path);
    assert Lookup(FilterChain, verb, path) == HasAnyRole({TC, ADMIN}) by { FilterChainLookup(verb, path); }
  }

  /** Everything under `/api/student` and `/api/meal` admits only STD. */
  lemma StudentAndMealAreasAdmitOnlyStudents(verb: HttpMethod, path: string, principal: Principal)
    requires InSubtree(path, "/api/student") || InSubtree(path, "/api/meal")
    ensures Decide(FilterChain, verb, path, principal) == Permit <==> principal == Authenticated(STD)
    ensures principal.Authenticated? && principal.role in {TC, ADMIN} ==>
            Decide(FilterChain, verb, path, principal) == AccessDenied
  {
    if InSubtree(path, "/api/student") {
      KeyChars(path, "/api/student");
      MissesPublicRule(verb, path);
      MissesTeacherAdminRule(verb, path);
    } else {
      KeyChars(path, "/api/meal");
      MissesPublicRule(verb, path);
      MissesTeacherAdminRule(verb, path);
    }
    assert Lookup(FilterChain, verb, path) == HasRole(STD) by { FilterChainLookup(verb, path); }
  }

  /**
   * Under `/api/admin`, apart from the public sign-in, sign-up and POST
   * refresh-token endpoints, only ADMIN is admitted; a student gets the
   * access-denied outcome.
   */
  lemma AdminAreaAdmitsOnlyAdmin(verb: HttpMethod, path: string, principal: Principal)
    requires InSubtree(path, "/api/admin")
    requires path != "/api/admin/sign-in" && path != "/api/admin/sign-up"
    requires !(verb == POST && path == "/api/admin/refresh-token")
    ensures Decide(FilterChain, verb, path, principal) == Permit <==> principal == Authenticated(ADMIN)
    ensures principal == Authenticated(STD) ==> Decide(FilterChain, verb, path, principal) == AccessDenied
  {
    AdminAreaMissesPublicRule(verb, path);
    KeyChars(path, "/api/admin");
    MissesTeacherAdminRule(verb, path);
    MissesStudentRule(path);
    assert Lookup(FilterChain, verb, path) == HasRole(ADMIN) by { FilterChainLookup(verb, path); }
  }

  /**
   * My-page, timetable, subject and logout admit exactly TC and STD, so an
   * administrator is denied even on `/api/logout`.
   */
  lemma TeacherStudentRoutesAdmitTeacherAndStudent(verb: HttpMethod, path: string, principal: Principal)
    requires InSubtree(path, "/api/mypage") || path == "/api/timetable"
          || InSubtree(path, "/api/subject") || path == "/api/logout"
    ensures Decide(FilterChain, verb, path, principal) == Permit <==> HoldsOneOf(principal, {TC, STD})
    ensures principal == Authenticated(ADMIN) ==> Decide(FilterChain, verb, path, principal) == AccessDenied
  {
    TeacherStudentRoutesSkipEarlierRules(verb, path);
    assert Lookup(FilterChain, verb, path) == HasAnyRole({TC, STD}) by { FilterChainLookup(verb, path); }
  }

  lemma TeacherStudentRoutesSkipEarlierRules(verb: HttpMethod, path: string)
    requires InSubtree(path, "/api/mypage") || path == "/api/timetable"
          || InSubtree(path, "/api/subject") || path == "/api/logout"
    ensures !IsPublicEndpoint(verb, path) && !IsTeacherAdminRoute(verb, path)
    ensures !IsStudentRoute(path) && !InSubtree(path, "/api/admin")
  {
    if InSubtree(path, "/api/mypage") {
      KeyChars(path, "/api/mypage");
    } else if InSubtree(path, "/api/subject") {
      KeyChars(path, "/api/subject");
    } else if path == "/api/timetable" {
      assert path[1] == 'a' && path[5] == 't' && path[6] == 'i' && path[7] == 'm';
    } else {
      assert path[1] == 'a' && path[5] == 'l' && path[6] == 'o' && path[7] == 'g';
    }
    MissesPublicRule(verb, path);
    MissesTeacherAdminRule(verb, path);
    MissesStudentRule(path);
    MissesAdminRule(path);
  }

  /** The schedule admits exactly TC and ADMIN. */
  lemma ScheduleAdmitsTeacherAndAdmin(verb: HttpMethod, principal: Principal)
    ensures Decide(FilterChain, verb, "/api/schedule", principal) == Permit
            <==> HoldsOneOf(principal, {TC, ADMIN})
  {
    var path := "/api/schedule";
    assert path[1] == 'a' && path[5] == 's' && path[6] == 'c' && path[7] == 'h';
    MissesPublicRule(verb, path);
    MissesTeacherAdminRule(verb, path);
    MissesStudentRule(path);
    MissesAdminRule(path);
    MissesTeacherStudentRule(verb, path);
    assert Lookup(FilterChain, verb, path) == HasAnyRole({TC, ADMIN}) by { FilterChainLookup(verb, path); }
  }

  /**
   * `/api/side` and everything under `/api/header` admit any of the three roles:
   * every authenticated caller is permitted and an anonymous one goes to the
   * entry point.
   */
  lemma SideAndHeaderAdmitAnyRole(verb: HttpMethod, path: string, principal: Principal)
    requires path == "/api/side" || InSubtree(path, "/api/header")
    ensures Decide(FilterChain, verb, path, principal) == Permit <==> principal.Authenticated?
    ensures principal.Anonymous? ==> Decide(FilterChain, verb, path, principal) == AuthenticationRequired
  {
    if path == "/api/side" {
      assert path[1] == 'a' && path[5] == 's' && path[6] == 'i' && path[7] == 'd';
    } else {
      KeyChars(path, "/api/header");
    }
    MissesPublicRule(verb, path);
    MissesTeacherAdminRule(verb, path);
    MissesStudentRule(path);
    MissesAdminRule(path);
    MissesTeacherStudentRule(verb, path);
    MissesScheduleRule(path);
    assert Lookup(FilterChain, verb, path) == HasAnyRole({TC, STD, ADMIN}) by { FilterChainLookup(verb, path); }
    if principal.Authenticated? {
      assert principal.role in {TC, STD, ADMIN} by {
        match principal.role {
          case TC => case STD => case ADMIN =>
        }
      }
    }
  }

  /** A request outside `/api` matches no role-gated rule and is permitted for everyone. */
  lemma OutsideApiIsPermitted(verb: HttpMethod, path: string, principal: Principal)
    requires !InSubtree(path, "/api")
    ensures Decide(FilterChain, verb, path, principal) == Permit
  {
    OutsideApiMissesEarlierGatedRules(verb, path);
    OutsideApiMissesLaterGatedRules(verb, path);
    assert Lookup(FilterChain, verb, path) == PermitAll by { FilterChainLookup(verb, path); }
  }

  // Every role-gated pattern of the table lies under `/api`.

  lemma OutsideApiMissesEarlierGatedRules(verb: HttpMethod, path: string)
    requires !InSubtree(path, "/api")
    ensures !IsTeacherAdminRoute(verb, path) && !IsStudentRoute(path) && !InSubtree(path, "/api/admin")
  {
    assert !IsTeacherAdminRoute(verb, path) by {
      if InSubtree(path, "/api/teacher") { InSubtreeNested(path, "/api", "teacher"); }
      if path == "/api/attendance" { ChildInSubtree("/api", "attendance"); }
    }
    assert !IsStudentRoute(path) by {
      if InSubtree(path, "/api/student") { InSubtreeNested(path, "/api", "student"); }
      if InSubtree(path, "/api/meal") { InSubtreeNested(path, "/api", "meal"); }
    }
    assert !InSubtree(path, "/api/admin") by {
      if InSubtree(path, "/api/admin") { InSubtreeNested(path, "/api", "admin"); }
    }
  }

  lemma OutsideApiMissesLaterGatedRules(verb: HttpMethod, path: string)
    requires !InSubtree(path, "/api")
    ensures !IsTeacherStudentRoute(verb, path) && path != "/api/schedule" && !IsAnyRoleRoute(path)
  {
    assert !IsTeacherStudentRoute(verb, path) by {
      if InSubtree(path, "/api/mypage") { InSubtreeNested(path, "/api", "mypage"); }
      if InSubtree(path, "/api/subject") { InSubtreeNested(path, "/api", "subject"); }
      if path == "/api/timetable" { ChildInSubtree("/api", "timetable"); }
      if path == "/api/logout" { ChildInSubtree("/api", "logout"); }
      if path == "/api/attendance" { ChildInSubtree("/api", "attendance"); }
    }
    assert path != "/api/schedule" by {
      if path == "/api/schedule" { ChildInSubtree("/api", "schedule"); }
    }
    assert !IsAnyRoleRoute(path) by {
      if path == "/api/side" { ChildInSubtree("/api", "side"); }
      if InSubtree(path, "/api/header") { InSubtreeNested(path, "/api", "header"); }
    }
  }

  /** No route is closed to everyone: some authenticated role is always permitted. */
  lemma EveryRouteAdmitsSomeRole(verb: HttpMethod, path: string)
    ensures exists r :: Decide(FilterChain, verb, path, Authenticated(r)) == Permit
  {
    FilterChainLookup(verb, path);
    var access := Lookup(FilterChain, verb, path);
    if access.PermitAll? {
      assert Decide(FilterChain, verb, path, Authenticated(TC)) == Permit;
    } else {
      SomeRoleIsAdmitted(access);
      var r :| Authorize(access, Authenticated(r)) == Permit;
      assert Decide(FilterChain, verb, path, Authenticated(r)) == Permit;
    }
  }

  /**
   * `anyRequest().permitAll()` closes the chain: a request no rule matches is
   * permitted for every caller.
   */
  lemma UnmatchedRequestsArePermitted(verb: HttpMethod, path: string, principal: Principal)
    requires NoRuleMatches(FilterChain.rules, verb, path)
    ensures Decide(FilterChain, verb, path, principal) == Permit
  {
  }
}
