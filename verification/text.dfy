/** String operations the client relies on: literal replace-all
    (`String.replace` and `String.replaceAll` with a pattern that has no
    regex meta-characters), the four-space indentation of the generated
    `toIndentedString`, and joining with a separator (Guava `Joiner`). */
module Text {
  import opened Wrappers

  /** Left-to-right, non-overlapping replacement of every occurrence of
      `pat` in `s` by `rep`; the replacement text is never rescanned. */
  function ReplaceAll(s: string, pat: string, rep: string): string
    requires |pat| > 0
    decreases |s|
  {
    if |s| == 0 then []
    else if pat <= s then rep + ReplaceAll(s[|pat|..], pat, rep)
    else [s[0]] + ReplaceAll(s[1..], pat, rep)
  }

  /** Text whose first character cannot start the pattern passes through
      unchanged, and the rest is processed on its own. */
  lemma {:induction false} ReplaceAllSkipsPrefix(p: string, q: string, pat: string, rep: string)
    requires |pat| > 0
    requires pat[0] !in p
    ensures ReplaceAll(p + q, pat, rep) == p + ReplaceAll(q, pat, rep)
    decreases |p|
  {
    if |p| > 0 {
      assert !(pat <= p + q) by {
        assert (p + q)[0] == p[0];
      }
      assert (p + q)[1..] == p[1..] + q;
      ReplaceAllSkipsPrefix(p[1..], q, pat, rep);
    } else {
      assert p + q == q;
    }
  }

  /** A string without the pattern's first character is left unchanged. */
  lemma ReplaceAllAbsent(s: string, pat: string, rep: string)
    requires |pat| > 0
    requires pat[0] !in s
    ensures ReplaceAll(s, pat, rep) == s
  {
    ReplaceAllSkipsPrefix(s, [], pat, rep);
    assert s + [] == s;
  }

  /** A string that does not start with the pattern and has no other place
      the pattern could start is left unchanged. */
  lemma ReplaceAllNoMatch(s: string, pat: string, rep: string)
    requires |pat| > 0 && |s| > 0
    requires !(pat <= s) && pat[0] !in s[1..]
    ensures ReplaceAll(s, pat, rep) == s
  {
    ReplaceAllAbsent(s[1..], pat, rep);
  }

  /** An occurrence at the front is replaced, then scanning resumes after it. */
  lemma ReplaceAllAtFront(q: string, pat: string, rep: string)
    requires |pat| > 0
    ensures ReplaceAll(pat + q, pat, rep) == rep + ReplaceAll(q, pat, rep)
  {
    assert (pat + q)[|pat|..] == q;
  }

  /** A template with one placeholder, no other occurrence of the
      placeholder's first character, becomes the template with the value in
      its place. */
  lemma ReplaceOnce(prefix: string, pat: string, rep: string, suffix: string)
    requires |pat| > 0
    requires pat[0] !in prefix && pat[0] !in suffix
    ensures ReplaceAll(prefix + pat + suffix, pat, rep) == prefix + rep + suffix
  {
    ReplaceOnceThenRest(prefix, pat, rep, suffix);
    ReplaceAllAbsent(suffix, pat, rep);
  }

  /** A template `prefix + pat + rest` with no earlier place the pattern
      could start: the first occurrence is replaced and scanning resumes
      after it. */
  lemma ReplaceOnceThenRest(prefix: string, pat: string, rep: string, rest: string)
    requires |pat| > 0
    requires pat[0] !in prefix
    ensures ReplaceAll(prefix + pat + rest, pat, rep) == prefix + rep + ReplaceAll(rest, pat, rep)
  {
    ReplaceAllSkipsPrefix(prefix, pat + rest, pat, rep);
    assert prefix + pat + rest == prefix + (pat + rest);
    ReplaceAllAtFront(rest, pat, rep);
  }

  /** `toIndentedString` on a non-null value: every line break is followed
      by four spaces, so nested output is indented one level. */
  function Indent(s: string): string {
    ReplaceAll(s, "\n", "\n    ")
  }

  /** The inverse of `Indent`: drops the four spaces after each line break. */
  function Unindent(s: string): string {
    ReplaceAll(s, "\n    ", "\n")
  }

  function CountChar(s: string, c: char): nat
    decreases |s|
  {
    if |s| == 0 then 0 else (if s[0] == c then 1 else 0) + CountChar(s[1..], c)
  }

  /** One step of `Indent`: a leading line break becomes the break plus four
      spaces, any other character is copied. */
  lemma IndentStep(s: string)
    requires |s| > 0
    ensures Indent(s) == (if s[0] == '\n' then "\n    " else [s[0]]) + Indent(s[1..])
  {
    if s[0] == '\n' {
      assert "\n" <= s;
    } else {
      assert !("\n" <= s);
    }
  }

  /** Indenting can be undone: nothing but the inserted spaces is added. */
  lemma {:induction false} UnindentIndent(s: string)
    ensures Unindent(Indent(s)) == s
    decreases |s|
  {
    if |s| > 0 {
      IndentStep(s);
      UnindentIndent(s[1..]);
      if s[0] == '\n' {
        ReplaceAllAtFront(Indent(s[1..]), "\n    ", "\n");
        assert [s[0]] + s[1..] == s;
      } else {
        var t := [s[0]] + Indent(s[1..]);
        assert !("\n    " <= t) by {
          assert t[0] == s[0];
        }
        assert t[1..] == Indent(s[1..]);
        assert [s[0]] + s[1..] == s;
      }
    }
  }

  /** Indenting adds exactly four characters per line break. */
  lemma {:induction false} IndentLength(s: string)
    ensures |Indent(s)| == |s| + 4 * CountChar(s, '\n')
    decreases |s|
  {
    if |s| > 0 {
      IndentStep(s);
      IndentLength(s[1..]);
    }
  }

  /** Indenting keeps the number of lines. */
  lemma {:induction false} IndentKeepsLineBreaks(s: string)
    ensures CountChar(Indent(s), '\n') == CountChar(s, '\n')
    decreases |s|
  {
    if |s| > 0 {
      IndentStep(s);
      IndentKeepsLineBreaks(s[1..]);
      CountCharAppend(if s[0] == '\n' then "\n    " else [s[0]], Indent(s[1..]), '\n');
    }
  }

  lemma {:induction false} CountCharAppend(a: string, b: string, c: char)
    ensures CountChar(a + b, c) == CountChar(a, c) + CountChar(b, c)
    decreases |a|
  {
    if |a| > 0 {
      assert (a + b)[1..] == a[1..] + b;
      CountCharAppend(a[1..], b, c);
    } else {
      assert a + b == b;
    }
  }

  /** Every line break of an indented text is followed by four spaces. */
  lemma {:induction false} IndentedBreaksAreIndented(s: string)
    ensures forall i | 0 <= i < |Indent(s)| && Indent(s)[i] == '\n' ::
      i + 5 <= |Indent(s)| && Indent(s)[i + 1..i + 5] == "    "
    decreases |s|
  {
    if |s| > 0 {
      IndentStep(s);
      IndentedBreaksAreIndented(s[1..]);
      var head := if s[0] == '\n' then "\n    " else [s[0]];
      var t := Indent(s[1..]);
      assert Indent(s) == head + t;
      forall i | 0 <= i < |head + t| && (head + t)[i] == '\n'
        ensures i + 5 <= |head + t| && (head + t)[i + 1..i + 5] == "    "
      {
        if i >= |head| {
          var j := i - |head|;
          assert t[j] == '\n';
          assert (head + t)[i + 1..i + 5] == t[j + 1..j + 5];
        } else {
          assert head == "\n    " && i == 0;
          assert (head + t)[1..5] == head[1..5];
        }
      }
    }
  }

  /** The generated models' `toIndentedString(o)`, given `o.toString()`
      for a non-null `o`: "null" for null, otherwise the text with four
      spaces after every line break, which can be taken off again. */
  function ToIndentedString(o: Option<string>): (r: string)
    ensures o.None? ==> r == "null"
    ensures o.Some? ==> Unindent(r) == o.value
    ensures o.Some? ==> |r| == |o.value| + 4 * CountChar(o.value, '\n')
    ensures o.Some? ==> CountChar(r, '\n') == CountChar(o.value, '\n')
    ensures o.Some? ==> forall i | 0 <= i < |r| && r[i] == '\n' :: i + 5 <= |r| && r[i + 1..i + 5] == "    "
  {
    match o
    case None => "null"
    case Some(s) =>
      UnindentIndent(s);
      IndentLength(s);
      IndentKeepsLineBreaks(s);
      IndentedBreaksAreIndented(s);
      Indent(s)
  }

  /** Guava `Joiner.on(sep).join(parts)`. */
  function Join(sep: string, parts: seq<string>): string
    decreases |parts|
  {
    if |parts| == 0 then ""
    else if |parts| == 1 then parts[0]
    else parts[0] + sep + Join(sep, parts[1..])
  }

  /** Splits a string at every occurrence of `c`; the partner of `Join`. */
  function Split(s: string, c: char): (parts: seq<string>)
    ensures |parts| > 0
    decreases |s|
  {
    if |s| == 0 then [""]
    else
      var rest := Split(s[1..], c);
      if s[0] == c then [""] + rest else [[s[0]] + rest[0]] + rest[1..]
  }

  lemma {:induction false} SplitWithoutSeparator(s: string, c: char)
    requires c !in s
    ensures Split(s, c) == [s]
    decreases |s|
  {
    if |s| > 0 {
      SplitWithoutSeparator(s[1..], c);
      assert [s[0]] + s[1..] == s;
    }
  }

  lemma {:induction false} SplitAppend(a: string, c: char, b: string)
    requires c !in a
    ensures Split(a + [c] + b, c) == [a] + Split(b, c)
    decreases |a|
  {
    if |a| == 0 {
      assert a + [c] + b == [c] + b;
      assert ([c] + b)[1..] == b;
    } else {
      assert (a + [c] + b)[1..] == a[1..] + [c] + b;
      SplitAppend(a[1..], c, b);
      assert [a[0]] + a[1..] == a;
    }
  }

  /** Joining with a one-character separator that occurs in no part is
      undone by splitting at it. */
  lemma {:induction false} SplitJoin(parts: seq<string>, c: char)
    requires |parts| > 0
    requires forall i | 0 <= i < |parts| :: c !in parts[i]
    ensures Split(Join([c], parts), c) == parts
    decreases |parts|
  {
    if |parts| == 1 {
      SplitWithoutSeparator(parts[0], c);
    } else {
      SplitJoin(parts[1..], c);
      SplitAppend(parts[0], c, Join([c], parts[1..]));
      assert [parts[0]] + parts[1..] == parts;
    }
  }
}
