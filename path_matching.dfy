// The path patterns used by the route-authorisation table: an exact path, or a
// `prefix/**` pattern that covers the prefix itself and every path below it.
// Request paths are the part of the URL after the servlet context, as strings.
module PathMatching {

  /** One `mvc.pattern(...)` path argument. */
  datatype PathPattern =
    | Exact(path: string)          // "/api/sign-in": that path only
    | Subtree(prefix: string)      // "/api/teacher/**", stored without the trailing "/**"
    | Opaque(text: string)         // a pattern this model does not interpret ("**exception**")

  /** The path is the prefix itself, or lies below it (the prefix, a '/', then anything). */
  predicate InSubtree(path: string, prefix: string) {
    path == prefix || prefix + "/" <= path
  }

  predicate PatternMatches(pattern: PathPattern, path: string) {
    match pattern
    case Exact(p) => path == p
    case Subtree(prefix) => InSubtree(path, prefix)
    case Opaque(_) => false
  }

  // `prefix/**` matches exactly the prefix and the paths `prefix + "/" + rest`.
  lemma InSubtreeIff(path: string, prefix: string)
    ensures InSubtree(path, prefix) <==>
            path == prefix || exists rest :: path == prefix + "/" + rest
  {
    if prefix + "/" <= path {
      var rest := path[|prefix| + 1..];
      assert path == prefix + "/" + rest;
    }
    if exists rest :: path == prefix + "/" + rest {
      var rest :| path == prefix + "/" + rest;
      assert (prefix + "/" + rest)[..|prefix| + 1] == prefix + "/";
    }
  }

  /** A path in the subtree of `prefix` agrees with `prefix` on every position of it. */
  lemma InSubtreeCharAt(path: string, prefix: string, k: nat)
    requires InSubtree(path, prefix) && k < |prefix|
    ensures k < |path| && path[k] == prefix[k]
  {
    if path != prefix {
      assert (prefix + "/")[k] == prefix[k];
    }
  }

  /** Every path directly built below a prefix lies in its subtree. */
  lemma ChildInSubtree(prefix: string, rest: string)
    ensures InSubtree(prefix + "/" + rest, prefix)
  {
    InSubtreeIff(prefix + "/" + rest, prefix);
  }

  // Subtrees nest: below `outer/inner` is below `outer`. With `outer` = "/api"
  // it places every `/api/<segment>/**` pattern of the table under `/api`.
  lemma {:induction false} InSubtreeNested(path: string, outer: string, inner: string)
    requires InSubtree(path, outer + "/" + inner)
    ensures InSubtree(path, outer)
  {
    var full := outer + "/" + inner;
    assert (outer + "/") <= full by {
      assert full[..|outer| + 1] == outer + "/";
    }
    if path != full {
      assert full <= path by {
        assert (full + "/")[..|full|] == full;
      }
    }
  }
}
