/** Python's string primitives that generate_suggestions relies on:
    `str.strip()` with no argument and `str.split(sep)` with a one-character separator,
    together with `sep.join(parts)`, the inverse of split. Strings are sequences of
    Unicode code points, as Python's `str` is. */
module Text {

  /** The characters for which Python's `str.isspace()` holds: exactly those
      that `str.strip()` with no argument removes. */
  const Whitespace: set<char> := {
    '\t', '\n', '\U{B}', '\U{C}', '\r', '\U{1C}', '\U{1D}', '\U{1E}', '\U{1F}', ' ',
    '\U{85}', '\U{A0}', '\U{1680}',
    '\U{2000}', '\U{2001}', '\U{2002}', '\U{2003}', '\U{2004}', '\U{2005}',
    '\U{2006}', '\U{2007}', '\U{2008}', '\U{2009}', '\U{200A}',
    '\U{2028}', '\U{2029}', '\U{202F}', '\U{205F}', '\U{3000}'
  }

  predicate IsSpace(c: char) {
    c in Whitespace
  }

  predicate AllSpace(s: string) {
    forall i :: 0 <= i < |s| ==> IsSpace(s[i])
  }

  /** Neither end of `s` is whitespace. */
  predicate IsStripped(s: string) {
    s == [] || (!IsSpace(s[0]) && !IsSpace(s[|s| - 1]))
  }

  /** `s.lstrip()`: what is left of `s` after its leading whitespace. */
  function LStrip(s: string): (r: string)
    ensures |r| <= |s|
    ensures r == [] || !IsSpace(r[0])
  {
    if s != [] && IsSpace(s[0]) then LStrip(s[1..]) else s
  }

  /** `s.rstrip()`: what is left of `s` after its trailing whitespace. */
  function RStrip(s: string): (r: string)
    ensures |r| <= |s| && r == s[..|r|]
    ensures r == [] || !IsSpace(r[|r| - 1])
  {
    if s != [] && IsSpace(s[|s| - 1]) then RStrip(s[..|s| - 1]) else s
  }

  /** `s.strip()`. */
  function Strip(s: string): (r: string)
    ensures IsStripped(r)
    ensures |r| <= |s|
  {
    RStrip(LStrip(s))
  }

  /** `lstrip()` removes a whitespace prefix and nothing else. */
  lemma {:induction false} LStripRemovesPrefix(s: string) returns (pre: string)
    ensures AllSpace(pre) && s == pre + LStrip(s)
  {
    if s != [] && IsSpace(s[0]) {
      var p := LStripRemovesPrefix(s[1..]);
      pre := [s[0]] + p;
      assert s == [s[0]] + s[1..];
    } else {
      pre := [];
      assert s == pre + s;
    }
  }

  /** `rstrip()` removes a whitespace suffix and nothing else. */
  lemma {:induction false} RStripRemovesSuffix(s: string) returns (post: string)
    ensures AllSpace(post) && s == RStrip(s) + post
  {
    if s != [] && IsSpace(s[|s| - 1]) {
      var p := RStripRemovesSuffix(s[..|s| - 1]);
      post := p + [s[|s| - 1]];
      assert s == s[..|s| - 1] + [s[|s| - 1]];
    } else {
      post := [];
    }
  }

  /** `s == pre + s.strip() + post` for some whitespace-only `pre` and `post`. */
  lemma StripDecomposes(s: string) returns (pre: string, post: string)
    ensures AllSpace(pre) && AllSpace(post)
    ensures s == pre + Strip(s) + post
  {
    pre := LStripRemovesPrefix(s);
    post := RStripRemovesSuffix(LStrip(s));
  }

  /** Leading whitespace never survives `lstrip()`. */
  lemma {:induction false} LStripSkip(pre: string, s: string)
    requires AllSpace(pre)
    ensures LStrip(pre + s) == LStrip(s)
  {
    if pre != [] {
      assert (pre + s)[1..] == pre[1..] + s;
      LStripSkip(pre[1..], s);
    } else {
      assert pre + s == s;
    }
  }

  /** Trailing whitespace never survives `rstrip()`. */
  lemma {:induction false} RStripSkip(s: string, post: string)
    requires AllSpace(post)
    ensures RStrip(s + post) == RStrip(s)
  {
    if post != [] {
      var p := |post| - 1;
      assert (s + post)[..|s| + p] == s + post[..p];
      RStripSkip(s, post[..p]);
    } else {
      assert s + post == s;
    }
  }

  /** Stripping is characterised by what it keeps: whatever whitespace surrounds
      a stripped string, `strip()` gives that string back. */
  lemma StripExact(pre: string, t: string, post: string)
    requires AllSpace(pre) && AllSpace(post) && IsStripped(t)
    ensures Strip(pre + t + post) == t
  {
    assert pre + t + post == pre + (t + post);
    LStripSkip(pre, t + post);
    if t == [] {
      assert t + post == post + [];
      LStripSkip(post, []);
    } else {
      assert LStrip(t + post) == t + post;
      RStripSkip(t, post);
    }
  }

  /** Whitespace added at either end does not change `strip()`. */
  lemma StripSkip(pre: string, s: string, post: string)
    requires AllSpace(pre) && AllSpace(post)
    ensures Strip(pre + s + post) == Strip(s)
  {
    var a, b := StripDecomposes(s);
    assert pre + s + post == (pre + a) + Strip(s) + (b + post);
    assert AllSpace(pre + a) && AllSpace(b + post);
    StripExact(pre + a, Strip(s), b + post);
    StripExact(a, Strip(s), b);
  }

  /** `sep.join(parts)`. */
  function Join(parts: seq<string>, sep: char): string {
    if |parts| == 0 then []
    else if |parts| == 1 then parts[0]
    else parts[0] + [sep] + Join(parts[1..], sep)
  }

  /** `s.split(sep)`: the pieces between occurrences of `sep`; there is always at least one. */
  function Split(s: string, sep: char): (r: seq<string>)
    ensures |r| >= 1
  {
    if s == [] then [[]]
    else
      var rest := Split(s[1..], sep);
      if s[0] == sep then [[]] + rest
      else [[s[0]] + rest[0]] + rest[1..]
  }

  /** No piece contains the separator, and joining the pieces with it gives `s` back. */
  lemma {:induction false} JoinSplit(s: string, sep: char)
    ensures forall k :: 0 <= k < |Split(s, sep)| ==> sep !in Split(s, sep)[k]
    ensures Join(Split(s, sep), sep) == s
  {
    if s != [] {
      JoinSplit(s[1..], sep);
      var rest := Split(s[1..], sep);
      assert s == [s[0]] + s[1..];
      if s[0] != sep {
        var r := [[s[0]] + rest[0]] + rest[1..];
        assert r[1..] == rest[1..];
        assert Join(r, sep) == [s[0]] + Join(rest, sep);
      }
    }
  }

  /** Splitting a joined sequence of separator-free pieces gives the pieces back. */
  lemma {:induction false} SplitJoin(parts: seq<string>, sep: char)
    requires |parts| >= 1
    requires forall k :: 0 <= k < |parts| ==> sep !in parts[k]
    ensures Split(Join(parts, sep), sep) == parts
  {
    if |parts| == 1 {
      SplitPiece(parts[0], sep);
    } else {
      SplitJoin(parts[1..], sep);
      SplitPrefix(parts[0], Join(parts[1..], sep), sep);
      assert parts == [parts[0]] + parts[1..];
    }
  }

  /** A separator-free string splits into itself. */
  lemma {:induction false} SplitPiece(p: string, sep: char)
    requires sep !in p
    ensures Split(p, sep) == [p]
  {
    if p != [] {
      SplitPiece(p[1..], sep);
      assert p == [p[0]] + p[1..];
    }
  }

  /** Splitting `p + [sep] + s` for a separator-free `p` puts `p` in front of the pieces of `s`. */
  lemma {:induction false} SplitPrefix(p: string, s: string, sep: char)
    requires sep !in p
    ensures Split(p + [sep] + s, sep) == [p] + Split(s, sep)
  {
    if p == [] {
      assert p + [sep] + s == [sep] + s;
      assert ([sep] + s)[1..] == s;
    } else {
      var t := p + [sep] + s;
      assert t[1..] == p[1..] + [sep] + s;
      SplitPrefix(p[1..], s, sep);
      assert [p[0]] + p[1..] == p;
    }
  }

  /** The pieces `r` with `c` appended to the last one. */
  function AppendToLast(r: seq<string>, c: char): seq<string>
    requires |r| >= 1
  {
    r[..|r| - 1] + [r[|r| - 1] + [c]]
  }

  /** Appending the separator to a string opens a new, empty last piece. */
  lemma {:induction false} SplitSnocSep(s: string, sep: char)
    ensures Split(s + [sep], sep) == Split(s, sep) + [[]]
  {
    var t := s + [sep];
    if s == [] {
      assert t == [sep] && t[1..] == [];
    } else {
      assert t[0] == s[0] && t[1..] == s[1..] + [sep];
      SplitSnocSep(s[1..], sep);
      var rest, rest' := Split(s[1..], sep), Split(t[1..], sep);
      if s[0] != sep {
        assert rest'[0] == rest[0] && rest'[1..] == rest[1..] + [[]];
      }
    }
  }

  lemma AppendToLastCons(x: string, r: seq<string>, c: char)
    requires |r| >= 1
    ensures AppendToLast([x] + r, c) == [x] + AppendToLast(r, c)
  {
    assert ([x] + r)[..|r|] == [x] + r[..|r| - 1];
  }

  /** Appending any other character to a string extends its last piece. */
  lemma {:induction false} SplitSnocOther(s: string, c: char, sep: char)
    requires c != sep
    ensures Split(s + [c], sep) == AppendToLast(Split(s, sep), c)
  {
    var t := s + [c];
    if s == [] {
      assert t == [c] && t[1..] == [];
      assert Split(t[1..], sep) == [[]] && Split(s, sep) == [[]];
      assert [c] + [] == [c] && [] + [c] == [c];
      assert Split(t, sep) == [[c]];
      assert AppendToLast(Split(s, sep), c) == [[c]];
    } else {
      assert t[0] == s[0] && t[1..] == s[1..] + [c];
      SplitSnocOther(s[1..], c, sep);
      SplitSnocOtherStep(s, c, sep);
    }
  }

  /** The inductive step of `SplitSnocOther`, from the first character's point of view. */
  lemma SplitSnocOtherStep(s: string, c: char, sep: char)
    requires c != sep && s != []
    requires Split(s[1..] + [c], sep) == AppendToLast(Split(s[1..], sep), c)
    ensures Split(s + [c], sep) == AppendToLast(Split(s, sep), c)
  {
    var t := s + [c];
    assert t[0] == s[0] && t[1..] == s[1..] + [c];
    var rest, rest' := Split(s[1..], sep), Split(t[1..], sep);
    if s[0] == sep {
      AppendToLastCons([], rest, c);
    } else {
      var head := [s[0]] + rest[0];
      assert Split(s, sep) == [head] + rest[1..];
      assert Split(t, sep) == [[s[0]] + rest'[0]] + rest'[1..];
      if |rest| == 1 {
        assert rest' == [rest[0] + [c]];
        assert [s[0]] + (rest[0] + [c]) == head + [c];
        assert AppendToLast([head], c) == [head + [c]];
      } else {
        assert rest == [rest[0]] + rest[1..];
        AppendToLastCons(rest[0], rest[1..], c);
        AppendToLastCons(head, rest[1..], c);
      }
    }
  }
}
