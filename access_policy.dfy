// An ordered route-authorisation table, evaluated the way Spring Security's
// `authorizeHttpRequests` evaluates the chain of `requestMatchers(...)` calls:
// rules are tried top to bottom, the first rule with a matching request matcher
// decides, and `anyRequest()` (always last in the chain) decides the rest.
module AccessPolicy {
  import opened PathMatching

  datatype Option<T> = None | Some(value: T)

  /** The request methods of Spring's `HttpMethod`. */
  datatype HttpMethod = GET | HEAD | POST | PUT | PATCH | DELETE | OPTIONS | TRACE

  /** The roles the table names: teacher, student and administrator. */
  datatype Role = TC | STD | ADMIN

  /** Who sends the request, as resolved by the authentication filter. */
  datatype Principal = Anonymous | Authenticated(role: Role)

  /** The outcome attached to a group of request matchers. */
  datatype Access =
    | PermitAll                      // permitAll()
    | HasRole(role: Role)            // hasRole("...")
    | HasAnyRole(roles: set<Role>)   // hasAnyRole("...", ...)

  /** `mvc.pattern(path)` (any method) or `mvc.pattern(method, path)`. */
  datatype RequestMatcher = RequestMatcher(onlyMethod: Option<HttpMethod>, pattern: PathPattern)

  /** One `requestMatchers(m1, ..., mk).<access>` step of the chain. */
  datatype Rule = Rule(matchers: seq<RequestMatcher>, access: Access)

  /** The whole chain: the rules in order, then what `anyRequest()` is given. */
  datatype Policy = Policy(rules: seq<Rule>, anyRequest: Access)

  /** What happens to the request. */
  datatype Decision =
    | Permit                  // the request proceeds to the controller
    | AuthenticationRequired  // handed to the authentication entry point
    | AccessDenied            // handed to the access-denied handler

  predicate MatcherMatches(matcher: RequestMatcher, verb: HttpMethod, path: string) {
    (matcher.onlyMethod.None? || matcher.onlyMethod.value == verb)
    && PatternMatches(matcher.pattern, path)
  }

  /** A rule applies when any one of its matchers matches. */
  predicate RuleMatches(rule: Rule, verb: HttpMethod, path: string) {
    exists i | 0 <= i < |rule.matchers| :: MatcherMatches(rule.matchers[i], verb, path)
  }

  /** Rule `i` matches and no rule before it does. */
  predicate FirstMatching(rules: seq<Rule>, i: int, verb: HttpMethod, path: string) {
    0 <= i < |rules|
    && RuleMatches(rules[i], verb, path)
    && forall j | 0 <= j < i :: !RuleMatches(rules[j], verb, path)
  }

  predicate NoRuleMatches(rules: seq<Rule>, verb: HttpMethod, path: string) {
    forall j | 0 <= j < |rules| :: !RuleMatches(rules[j], verb, path)
  }

  /** The index of the rule that decides the request, if any rule matches at all. */
  function FirstMatch(rules: seq<Rule>, verb: HttpMethod, path: string): (r: Option<nat>)
    ensures r.Some? ==> FirstMatching(rules, r.value, verb, path)
    ensures r.None? <==> NoRuleMatches(rules, verb, path)
  {
    if rules == [] then None
    else if RuleMatches(rules[0], verb, path) then Some(0)
    else match FirstMatch(rules[1..], verb, path)
      case None => None
      case Some(i) => Some(i + 1)
  }

  /** The access that governs the request: the first matching rule's, else `anyRequest()`'s. */
  function Lookup(policy: Policy, verb: HttpMethod, path: string): (a: Access)
    ensures forall i | FirstMatching(policy.rules, i, verb, path) :: a == policy.rules[i].access
    ensures NoRuleMatches(policy.rules, verb, path) ==> a == policy.anyRequest
  {
    match FirstMatch(policy.rules, verb, path)
    case None => policy.anyRequest
    case Some(i) => policy.rules[i].access
  }

  /** The roles a role-gated access admits; `hasRole(r)` admits just `r`. */
  function AllowedRoles(access: Access): set<Role>
    requires !access.PermitAll?
  {
    match access
    case HasRole(r) => {r}
    case HasAnyRole(rs) => rs
  }

  /**
   * The decision for one access and one principal. A public rule lets everyone
   * through; otherwise only a principal holding one of the allowed roles. A denied
   * anonymous caller goes to the entry point, a denied authenticated one to the
   * access-denied handler.
   */
  function Authorize(access: Access, principal: Principal): (d: Decision)
    ensures d == Permit <==>
            access.PermitAll? || (principal.Authenticated? && principal.role in AllowedRoles(access))
    ensures d == AuthenticationRequired <==> !access.PermitAll? && principal.Anonymous?
    ensures d == AccessDenied <==>
            !access.PermitAll? && principal.Authenticated? && principal.role !in AllowedRoles(access)
  {
    match access
    case PermitAll => Permit
    case _ =>
      match principal
      case Anonymous => AuthenticationRequired
      case Authenticated(role) => if role in AllowedRoles(access) then Permit else AccessDenied
  }

  /**
   * The authorisation step's verdict on a request that reaches it: the access
   * the table assigns, checked against the caller.
   */
  function Decide(policy: Policy, verb: HttpMethod, path: string, principal: Principal): (d: Decision)
    ensures principal.Anonymous? ==> (d == Permit <==> Lookup(policy, verb, path).PermitAll?)
    ensures principal.Anonymous? ==> d != AccessDenied
    ensures principal.Authenticated? ==> d != AuthenticationRequired
    ensures NoRuleMatches(policy.rules, verb, path) ==> d == Authorize(policy.anyRequest, principal)
  {
    Authorize(Lookup(policy, verb, path), principal)
  }

  /** `hasRole(r)` and `hasAnyRole(r)` decide alike. */
  lemma HasRoleIsHasAnyRoleOfOne(role: Role, principal: Principal)
    ensures Authorize(HasRole(role), principal) == Authorize(HasAnyRole({role}), principal)
  {
  }

  /**
   * First match wins: once some rule of `rules` matches, whatever is appended
   * after them never changes the outcome.
   */
  lemma AppendedRulesAreShadowed(rules: seq<Rule>, later: seq<Rule>, anyRequest: Access,
                                 verb: HttpMethod, path: string)
    requires !NoRuleMatches(rules, verb, path)
    ensures Lookup(Policy(rules + later, anyRequest), verb, path)
         == Lookup(Policy(rules, anyRequest), verb, path)
  {
    var i := FirstMatch(rules, verb, path).value;
    assert FirstMatching(rules + later, i, verb, path) by {
      assert (rules + later)[i] == rules[i];
      forall j | 0 <= j < i ensures (rules + later)[j] == rules[j] { }
    }
  }

  /**
   * Rules that do not match are skipped: when nothing in `earlier` matches, the
   * request is decided by `rest` exactly as if `earlier` were not there.
   */
  lemma NonMatchingRulesAreSkipped(earlier: seq<Rule>, rest: seq<Rule>, anyRequest: Access,
                                   verb: HttpMethod, path: string)
    requires NoRuleMatches(earlier, verb, path)
    ensures Lookup(Policy(earlier + rest, anyRequest), verb, path)
         == Lookup(Policy(rest, anyRequest), verb, path)
  {
    var all := earlier + rest;
    var n := |earlier|;
    match FirstMatch(rest, verb, path)
    case None =>
      forall j | 0 <= j < |all| ensures !RuleMatches(all[j], verb, path) {
        if j >= n { assert all[j] == rest[j - n]; }
      }
    case Some(i) =>
      assert FirstMatching(all, i + n, verb, path) by {
        assert all[i + n] == rest[i];
        forall j | 0 <= j < i + n ensures !RuleMatches(all[j], verb, path) {
          if j >= n { assert all[j] == rest[j - n]; }
        }
      }
  }

  /** A role-gated access with at least one role admits some authenticated principal. */
  lemma SomeRoleIsAdmitted(access: Access)
    requires !access.PermitAll? && AllowedRoles(access) != {}
    ensures exists r :: Authorize(access, Authenticated(r)) == Permit
  {
    var r :| r in AllowedRoles(access);
    assert Authorize(access, Authenticated(r)) == Permit;
  }
}
