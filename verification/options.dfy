/** `RequestOptions` as the generated `*Api` classes adjust it: extended
    query parameters, added headers, a defaulted followLocation, and URL
    template substitution. */
module ApiOptions {
  import opened Wrappers
  import opened Multimap
  import opened Http
  import opened Text

  const APPLICATION_JSON := "application/json"
  const TEXT_PLAIN := "text/plain"

  /** `HashMultimap.create(inputOptions.getQueryParams())` followed by `put`s
      and `withQueryParams`: the caller's pairs, duplicates collapsed, plus
      the new ones. */
  function WithQueryPairs(opts: Options, pairs: set<Pair>): (r: Options)
    ensures r.queryParams.Hashed?
    ensures forall p :: Contains(r.queryParams, p) <==> Contains(opts.queryParams, p) || p in pairs
    ensures r.headers == opts.headers && r.followLocation == opts.followLocation
  {
    opts.(queryParams := Hashed(Entries(opts.queryParams) + pairs))
  }

  /** `withHeader(name, value)`: sets one header, keeping the others. */
  function WithHeader(opts: Options, name: string, value: string): (r: Options)
    ensures name in r.headers && r.headers[name] == value
    ensures r.headers.Keys == opts.headers.Keys + {name}
    ensures forall h | h in opts.headers && h != name :: r.headers[h] == opts.headers[h]
    ensures r.queryParams == opts.queryParams && r.followLocation == opts.followLocation
  {
    opts.(headers := opts.headers[name := value])
  }

  /** `withFollowLocation(MoreObjects.firstNonNull(getFollowLocation(),
      Boolean.TRUE))`: the caller's choice, or true when it made none. */
  function FollowLocationOrTrue(opts: Options): (r: Options)
    ensures r.followLocation.Some?
    ensures opts.followLocation.Some? ==> r.followLocation == opts.followLocation
    ensures opts.followLocation.None? ==> r.followLocation == Some(true)
    ensures r.queryParams == opts.queryParams && r.headers == opts.headers
  {
    opts.(followLocation := Some(opts.followLocation.GetOr(true)))
  }

  /** Defaulting twice is defaulting once. */
  lemma FollowLocationOrTrueIdempotent(opts: Options)
    ensures FollowLocationOrTrue(FollowLocationOrTrue(opts)) == FollowLocationOrTrue(opts)
  {
  }

  /** Setting a header twice keeps the last value only. */
  lemma WithHeaderOverrides(opts: Options, name: string, v1: string, v2: string)
    ensures WithHeader(WithHeader(opts, name, v1), name, v2) == WithHeader(opts, name, v2)
  {
  }

  /** The message of the generated `Preconditions.checkNotNull` on a
      required parameter. */
  function MissingParameter(param: string, operation: string): string {
    "Missing the required parameter '" + param + "' when calling " + operation
  }

  /** Characters a Java regex replacement string treats specially. */
  predicate LiteralReplacement(value: string) {
    '$' !in value && '\\' !in value
  }

  /** The placeholder `{name}` of a URL template. */
  function Placeholder(name: string): string {
    "{" + name + "}"
  }

  /** `template.replaceAll("\\{" + name + "\\}", value)` for a value without
      regex replacement syntax: every `{name}` becomes `value`. */
  function Substitute(template: string, name: string, value: string): string
    requires LiteralReplacement(value)
  {
    ReplaceAll(template, Placeholder(name), value)
  }

  /** A template `prefix{name}suffix` whose prefix and suffix hold no '{'
      becomes `prefix + value + suffix`. */
  lemma SubstituteOnce(prefix: string, name: string, value: string, suffix: string)
    requires LiteralReplacement(value)
    requires '{' !in prefix && '{' !in suffix
    ensures Substitute(prefix + Placeholder(name) + suffix, name, value) == prefix + value + suffix
  {
    ReplaceOnce(prefix, Placeholder(name), value, suffix);
  }

  /** In `prefix{name1}infix{name2}`, substituting `name1` passes over the
      second placeholder when it does not start with the first. */
  lemma SubstituteFirstOfTwo(prefix: string, name1: string, value: string, infix: string, name2: string)
    requires LiteralReplacement(value)
    requires '{' !in prefix && '{' !in infix && '{' !in name2
    requires !(Placeholder(name1) <= Placeholder(name2))
    ensures Substitute(prefix + Placeholder(name1) + infix + Placeholder(name2), name1, value)
         == prefix + value + infix + Placeholder(name2)
  {
    var pat, second := Placeholder(name1), Placeholder(name2);
    assert second[1..] == name2 + "}";
    ReplaceAllNoMatch(second, pat, value);
    ReplaceAllSkipsPrefix(infix, second, pat, value);
    assert prefix + pat + infix + second == prefix + pat + (infix + second);
    ReplaceOnceThenRest(prefix, pat, value, infix + second);
  }
}
