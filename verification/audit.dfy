/** The audit trail and plugin properties every mutating call of
    `KillBillClient` attaches to its query parameters. */
module Audit {
  import opened Wrappers
  import opened Multimap
  import opened Names
  import opened Http

  /** The exception Guava's immutable collections throw for a null value. */
  function NullValueInEntry(key: string): Error {
    NullPointer("null value in entry: " + key + "=null")
  }

  /** `paramsWithAudit(createdBy, reason, comment)`: the three audit options
      as an `ImmutableMultimap`, which refuses a null value. */
  function AuditParams(createdBy: Option<string>, reason: Option<string>, comment: Option<string>): (r: Result<seq<Pair>, Error>)
    ensures r.Success? <==> createdBy.Some? && reason.Some? && comment.Some?
    ensures r.Success? ==> r.value == [(AUDIT_OPTION_CREATED_BY, createdBy.value),
                                       (AUDIT_OPTION_REASON, reason.value),
                                       (AUDIT_OPTION_COMMENT, comment.value)]
    ensures createdBy.None? ==> r.Failure? && r.error == NullValueInEntry(AUDIT_OPTION_CREATED_BY)
    ensures createdBy.Some? && reason.None? ==> r.Failure? && r.error == NullValueInEntry(AUDIT_OPTION_REASON)
    ensures createdBy.Some? && reason.Some? && comment.None? ==> r.Failure? && r.error == NullValueInEntry(AUDIT_OPTION_COMMENT)
  {
    var c :- CheckEntry(AUDIT_OPTION_CREATED_BY, createdBy);
    var rs :- CheckEntry(AUDIT_OPTION_REASON, reason);
    var cm :- CheckEntry(AUDIT_OPTION_COMMENT, comment);
    Success([(AUDIT_OPTION_CREATED_BY, c), (AUDIT_OPTION_REASON, rs), (AUDIT_OPTION_COMMENT, cm)])
  }

  function CheckEntry(key: string, value: Option<string>): (r: Result<string, Error>)
    ensures value.Some? <==> r.Success?
    ensures r.Success? ==> r.value == value.value
    ensures r.Failure? ==> r.error == NullValueInEntry(key)
  {
    match value
    case Some(v) => Success(v)
    case None => Failure(NullValueInEntry(key))
  }

  /** None of the three audit arguments is null. */
  predicate AuditPresent(createdBy: Option<string>, reason: Option<string>, comment: Option<string>) {
    createdBy.Some? && reason.Some? && comment.Some?
  }

  /** The audit pairs as a set, for the statements below. */
  function AuditEntries(createdBy: string, reason: string, comment: string): set<Pair> {
    {(AUDIT_OPTION_CREATED_BY, createdBy), (AUDIT_OPTION_REASON, reason), (AUDIT_OPTION_COMMENT, comment)}
  }

  /** `paramsWithAudit(queryParams, createdBy, reason, comment)`: a fresh
      `HashMultimap` holding the caller's pairs and the three audit pairs. */
  function ParamsWithAudit(params: Multimap, createdBy: Option<string>, reason: Option<string>, comment: Option<string>): (r: Result<Multimap, Error>)
    ensures r.Success? <==> createdBy.Some? && reason.Some? && comment.Some?
    ensures r.Failure? ==> r.error == AuditParams(createdBy, reason, comment).error
    ensures r.Success? ==> r.value.Hashed?
    ensures r.Success? ==> forall p :: p in Entries(r.value) <==>
      (Contains(params, p) || p in AuditEntries(createdBy.value, reason.value, comment.value))
  {
    var audit :- AuditParams(createdBy, reason, comment);
    Success(Hashed(Entries(params) + Entries(Listed(audit))))
  }

  /** With caller parameters that use none of the audit keys, each audit key
      holds exactly its one value. */
  lemma AuditValuesExact(params: Multimap, createdBy: string, reason: string, comment: string)
    requires forall p :: Contains(params, p) ==> p.0 !in {AUDIT_OPTION_CREATED_BY, AUDIT_OPTION_REASON, AUDIT_OPTION_COMMENT}
    ensures ParamsWithAudit(params, Some(createdBy), Some(reason), Some(comment)).Success?
    ensures var es := Entries(ParamsWithAudit(params, Some(createdBy), Some(reason), Some(comment)).value);
      && Values(es, AUDIT_OPTION_CREATED_BY) == {createdBy}
      && Values(es, AUDIT_OPTION_REASON) == {reason}
      && Values(es, AUDIT_OPTION_COMMENT) == {comment}
  {
    var es := Entries(ParamsWithAudit(params, Some(createdBy), Some(reason), Some(comment)).value);
    assert Values(es, AUDIT_OPTION_CREATED_BY) == {createdBy} by {
      forall v ensures v in Values(es, AUDIT_OPTION_CREATED_BY) <==> v == createdBy {
        if (AUDIT_OPTION_CREATED_BY, v) in es && Contains(params, (AUDIT_OPTION_CREATED_BY, v)) {
          assert false;
        }
      }
    }
    assert Values(es, AUDIT_OPTION_REASON) == {reason} by {
      forall v ensures v in Values(es, AUDIT_OPTION_REASON) <==> v == reason {
        if (AUDIT_OPTION_REASON, v) in es && Contains(params, (AUDIT_OPTION_REASON, v)) {
          assert false;
        }
      }
    }
    assert Values(es, AUDIT_OPTION_COMMENT) == {comment} by {
      forall v ensures v in Values(es, AUDIT_OPTION_COMMENT) <==> v == comment {
        if (AUDIT_OPTION_COMMENT, v) in es && Contains(params, (AUDIT_OPTION_COMMENT, v)) {
          assert false;
        }
      }
    }
  }

  /** The `pluginProperty` value for one map entry: `enc(key)=enc(value)`,
      `enc` being the URL encoder. */
  function PluginProperty(enc: string -> string, key: string, value: string): Pair {
    (QUERY_PLUGIN_PROPERTY, enc(key) + "=" + enc(value))
  }

  /** `storePluginPropertiesAsParams(pluginProperties, params)`: one
      `pluginProperty` pair per map key is put into the `HashMultimap`. */
  function StorePluginProperties(props: map<string, string>, params: set<Pair>, enc: string -> string): (r: set<Pair>)
    ensures params <= r
    ensures forall k | k in props :: PluginProperty(enc, k, props[k]) in r
    ensures forall p | p in r && p !in params ::
      p.0 == QUERY_PLUGIN_PROPERTY && exists k | k in props :: p == PluginProperty(enc, k, props[k])
  {
    params + PluginPropertyEntries(props, enc)
  }

  function PluginPropertyEntries(props: map<string, string>, enc: string -> string): set<Pair> {
    set k | k in props :: PluginProperty(enc, k, props[k])
  }

  /** Distinct keys give distinct pairs when the encoder is injective and
      never produces '='. */
  lemma PluginPropertyInjective(enc: string -> string, k1: string, v1: string, k2: string, v2: string)
    requires forall s :: '=' !in enc(s)
    requires forall s, t :: enc(s) == enc(t) ==> s == t
    requires PluginProperty(enc, k1, v1) == PluginProperty(enc, k2, v2)
    ensures k1 == k2
  {
    var a, c := enc(k1), enc(k2);
    assert a + "=" + enc(v1) == c + "=" + enc(v2);
    FirstIndexOfSeparator(a, '=', enc(v1));
    FirstIndexOfSeparator(c, '=', enc(v2));
    assert a == (a + "=" + enc(v1))[..|a|];
  }

  /** Position of the first `ch` in `s`, or `|s|` if there is none. */
  function FirstIndex(s: string, ch: char): (i: nat)
    ensures i <= |s|
    decreases |s|
  {
    if |s| == 0 || s[0] == ch then 0 else 1 + FirstIndex(s[1..], ch)
  }

  lemma {:induction false} FirstIndexOfSeparator(a: string, ch: char, b: string)
    requires ch !in a
    ensures FirstIndex(a + [ch] + b, ch) == |a|
    decreases |a|
  {
    if |a| > 0 {
      assert (a + [ch] + b)[1..] == a[1..] + [ch] + b;
      FirstIndexOfSeparator(a[1..], ch, b);
    }
  }

  /** Removing a key removes its pair and leaves the others. */
  lemma EntriesWithout(props: map<string, string>, k: string, enc: string -> string)
    requires k in props
    ensures PluginPropertyEntries(props, enc)
         == PluginPropertyEntries(props - {k}, enc) + {PluginProperty(enc, k, props[k])}
  {
    var rest := props - {k};
    var p := PluginProperty(enc, k, props[k]);
    var all, part := PluginPropertyEntries(props, enc), PluginPropertyEntries(rest, enc);
    forall q ensures q in all <==> q in part + {p} {
      if q in all {
        var k2 :| k2 in props && q == PluginProperty(enc, k2, props[k2]);
        if k2 != k {
          assert k2 in rest;
        }
      }
      if q in part {
        var k2 :| k2 in rest && q == PluginProperty(enc, k2, rest[k2]);
        assert k2 in props;
      }
    }
  }

  /** A key's pair is not among the pairs of the other keys. */
  lemma EntryNotInRest(props: map<string, string>, k: string, enc: string -> string)
    requires forall s :: '=' !in enc(s)
    requires forall s, t :: enc(s) == enc(t) ==> s == t
    requires k in props
    ensures PluginProperty(enc, k, props[k]) !in PluginPropertyEntries(props - {k}, enc)
  {
    var rest := props - {k};
    if PluginProperty(enc, k, props[k]) in PluginPropertyEntries(rest, enc) {
      var k2 :| k2 in rest && PluginProperty(enc, k, props[k]) == PluginProperty(enc, k2, rest[k2]);
      PluginPropertyInjective(enc, k, props[k], k2, rest[k2]);
      assert false;
    }
  }

  /** Exactly one `pluginProperty` pair per map key: with an injective
      encoder that never produces '=', there are as many pairs as keys. */
  lemma {:induction false} PluginPropertyCount(props: map<string, string>, enc: string -> string)
    requires forall s :: '=' !in enc(s)
    requires forall s, t :: enc(s) == enc(t) ==> s == t
    ensures |PluginPropertyEntries(props, enc)| == |props|
    decreases |props|
  {
    if |props| > 0 {
      var k :| k in props;
      PluginPropertyCount(props - {k}, enc);
      EntriesWithout(props, k, enc);
      EntryNotInRest(props, k, enc);
      assert |props - {k}| == |props| - 1;
    } else {
      assert PluginPropertyEntries(props, enc) == {};
    }
  }
}
