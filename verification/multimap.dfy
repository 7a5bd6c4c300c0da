/** Guava multimaps of query parameters. An `ImmutableMultimap` keeps its
    pairs in insertion order and may repeat one; a `HashMultimap` is a set of
    key/value pairs, so a repeated pair collapses. */
module Multimap {
  import opened Wrappers

  type Pair = (string, string)

  datatype Multimap = Listed(pairs: seq<Pair>) | Hashed(entries: set<Pair>)

  /** The pairs of a multimap, forgetting order and repetition. */
  function Entries(m: Multimap): (r: set<Pair>)
    ensures forall p :: p in r <==> Contains(m, p)
  {
    match m
    case Listed(ps) => set i | 0 <= i < |ps| :: ps[i]
    case Hashed(es) => es
  }

  predicate Contains(m: Multimap, p: Pair) {
    match m
    case Listed(ps) => p in ps
    case Hashed(es) => p in es
  }

  /** `DEFAULT_EMPTY_QUERY` and `ImmutableMultimap.of()`. */
  const Empty := Listed([])

  /** The values stored under `key`. */
  function Values(es: set<Pair>, key: string): (r: set<string>)
    ensures forall v :: v in r <==> (key, v) in es
  {
    set p | p in es && p.0 == key :: p.1
  }

  /** The keys that have at least one value. */
  function Keys(es: set<Pair>): (r: set<string>)
    ensures forall k :: k in r <==> exists v :: (k, v) in es
  {
    var r := set p | p in es :: p.0;
    assert forall k, v :: (k, v) in es ==> k in r by {
      forall k, v | (k, v) in es ensures k in r {
        var p := (k, v);
        assert p in es && p.0 == k;
      }
    }
    r
  }

  /** The values a key holds when it is put exactly when its argument is
      non-null. */
  function ValuesOf(value: Option<string>): set<string> {
    if value.Some? then {value.value} else {}
  }

  /** The pairs of a list of puts, each made only when its value is non-null. */
  function PutPresent(puts: seq<(string, Option<string>)>): (r: set<Pair>)
    ensures forall p :: p in r <==> exists i | 0 <= i < |puts| :: puts[i].1.Some? && p == (puts[i].0, puts[i].1.value)
    decreases |puts|
  {
    if |puts| == 0 then {}
    else
      var rest := PutPresent(puts[1..]);
      assert forall i | 1 <= i < |puts| :: puts[i] == puts[1..][i - 1];
      (if puts[0].1.Some? then {(puts[0].0, puts[0].1.value)} else {}) + rest
  }

  predicate DistinctKeys(puts: seq<(string, Option<string>)>) {
    forall i, j | 0 <= i < j < |puts| :: puts[i].0 != puts[j].0
  }

  /** The keys that are put, in a list of puts. */
  function PresentKeys(puts: seq<(string, Option<string>)>): (r: set<string>)
    ensures forall k :: k in r <==> exists i | 0 <= i < |puts| :: puts[i].1.Some? && puts[i].0 == k
    decreases |puts|
  {
    if |puts| == 0 then {}
    else
      var rest := PresentKeys(puts[1..]);
      assert forall i | 1 <= i < |puts| :: puts[i] == puts[1..][i - 1];
      (if puts[0].1.Some? then {puts[0].0} else {}) + rest
  }

  /** With pairwise distinct keys, each key of the list holds its value if it
      is non-null and nothing otherwise, and no other key is present. */
  lemma PutPresentContents(puts: seq<(string, Option<string>)>)
    requires DistinctKeys(puts)
    ensures forall i | 0 <= i < |puts| :: Values(PutPresent(puts), puts[i].0) == ValuesOf(puts[i].1)
    ensures Keys(PutPresent(puts)) == PresentKeys(puts)
  {
    var es := PutPresent(puts);
    forall i | 0 <= i < |puts| ensures Values(es, puts[i].0) == ValuesOf(puts[i].1) {
      forall v ensures v in Values(es, puts[i].0) <==> v in ValuesOf(puts[i].1) {
        if (puts[i].0, v) in es {
          var j :| 0 <= j < |puts| && puts[j].1.Some? && (puts[i].0, v) == (puts[j].0, puts[j].1.value);
          assert i == j;
        }
      }
    }
    forall k ensures k in Keys(es) <==> k in PresentKeys(puts) {
      if k in PresentKeys(puts) {
        var i :| 0 <= i < |puts| && puts[i].1.Some? && puts[i].0 == k;
        assert (k, puts[i].1.value) in es;
      }
    }
  }

  function AllKeys(puts: seq<(string, Option<string>)>): (r: set<string>)
    ensures forall k :: k in r <==> exists i | 0 <= i < |puts| :: puts[i].0 == k
    decreases |puts|
  {
    if |puts| == 0 then {}
    else
      var rest := AllKeys(puts[1..]);
      assert forall i | 1 <= i < |puts| :: puts[i] == puts[1..][i - 1];
      {puts[0].0} + rest
  }

  lemma PutPresentAppend(a: seq<(string, Option<string>)>, b: seq<(string, Option<string>)>)
    ensures PutPresent(a + b) == PutPresent(a) + PutPresent(b)
  {
    forall p ensures p in PutPresent(a + b) <==> p in PutPresent(a) + PutPresent(b) {
      if p in PutPresent(a + b) {
        var i :| 0 <= i < |a + b| && (a + b)[i].1.Some? && p == ((a + b)[i].0, (a + b)[i].1.value);
        if i >= |a| {
          assert (a + b)[i] == b[i - |a|];
        }
      }
      if p in PutPresent(a) {
        var i :| 0 <= i < |a| && a[i].1.Some? && p == (a[i].0, a[i].1.value);
        assert (a + b)[i] == a[i];
      }
      if p in PutPresent(b) {
        var i :| 0 <= i < |b| && b[i].1.Some? && p == (b[i].0, b[i].1.value);
        assert (a + b)[|a| + i] == b[i];
      }
    }
  }

  lemma PresentKeysAppend(a: seq<(string, Option<string>)>, b: seq<(string, Option<string>)>)
    ensures PresentKeys(a + b) == PresentKeys(a) + PresentKeys(b)
  {
    forall k ensures k in PresentKeys(a + b) <==> k in PresentKeys(a) + PresentKeys(b) {
      if k in PresentKeys(a + b) {
        var i :| 0 <= i < |a + b| && (a + b)[i].1.Some? && (a + b)[i].0 == k;
        if i >= |a| {
          assert (a + b)[i] == b[i - |a|];
        }
      }
      if k in PresentKeys(a) {
        var i :| 0 <= i < |a| && a[i].1.Some? && a[i].0 == k;
        assert (a + b)[i] == a[i];
      }
      if k in PresentKeys(b) {
        var i :| 0 <= i < |b| && b[i].1.Some? && b[i].0 == k;
        assert (a + b)[|a| + i] == b[i];
      }
    }
  }

  lemma AllKeysAppend(a: seq<(string, Option<string>)>, b: seq<(string, Option<string>)>)
    ensures AllKeys(a + b) == AllKeys(a) + AllKeys(b)
  {
    forall k ensures k in AllKeys(a + b) <==> k in AllKeys(a) + AllKeys(b) {
      if k in AllKeys(a + b) {
        var i :| 0 <= i < |a + b| && (a + b)[i].0 == k;
        if i >= |a| {
          assert (a + b)[i] == b[i - |a|];
        }
      }
      if k in AllKeys(a) {
        var i :| 0 <= i < |a| && a[i].0 == k;
        assert (a + b)[i] == a[i];
      }
      if k in AllKeys(b) {
        var i :| 0 <= i < |b| && b[i].0 == k;
        assert (a + b)[|a| + i] == b[i];
      }
    }
  }

  lemma DistinctKeysAppend(a: seq<(string, Option<string>)>, b: seq<(string, Option<string>)>)
    requires DistinctKeys(a) && DistinctKeys(b)
    requires AllKeys(a) !! AllKeys(b)
    ensures DistinctKeys(a + b)
  {
    forall i, j | 0 <= i < j < |a + b| ensures (a + b)[i].0 != (a + b)[j].0 {
      if j < |a| {
        assert (a + b)[i] == a[i] && (a + b)[j] == a[j];
      } else if i >= |a| {
        assert (a + b)[i] == b[i - |a|] && (a + b)[j] == b[j - |a|];
      } else {
        assert (a + b)[i] == a[i] && (a + b)[j] == b[j - |a|];
        assert a[i].0 in AllKeys(a) && b[j - |a|].0 in AllKeys(b);
      }
    }
  }
}
