/** The string operations of Python's `str` that the deployment script
    relies on: `replace`, `split` and `join`, plus the escaping it builds
    from `replace`. */
module Text {

  /** `pre` is a prefix of `s`. */
  predicate StartsWith(pre: string, s: string)
  {
    |pre| <= |s| && s[..|pre|] == pre
  }

  /** `pat` occurs somewhere in `s` (Python's `pat in s`). */
  predicate Occurs(pat: string, s: string)
    decreases |s|
  {
    |pat| <= |s| && (s[..|pat|] == pat || (s != [] && Occurs(pat, s[1..])))
  }

  /** Python's `s.replace(pat, rep)`: scanning from the left, every
      occurrence of `pat` that does not overlap an earlier one becomes
      `rep`. The script only ever replaces non-empty patterns. */
  function Replace(s: string, pat: string, rep: string): (r: string)
    requires pat != []
    ensures !Occurs(pat, s) ==> r == s
    ensures forall c :: c in r ==> c in s || c in rep
    decreases |s|
  {
    if |s| < |pat| then s
    else if s[..|pat|] == pat then rep + Replace(s[|pat|..], pat, rep)
    else [s[0]] + Replace(s[1..], pat, rep)
  }

  /** Replacing a pattern by itself changes nothing. */
  lemma {:induction false} ReplaceBySelf(s: string, pat: string)
    requires pat != []
    ensures Replace(s, pat, pat) == s
    decreases |s|
  {
    if |s| < |pat| {
    } else if s[..|pat|] == pat {
      ReplaceBySelf(s[|pat|..], pat);
      assert pat + s[|pat|..] == s;
    } else {
      ReplaceBySelf(s[1..], pat);
      assert [s[0]] + s[1..] == s;
    }
  }

  /** A pattern that starts with a character absent from `s` leaves `s`
      untouched. */
  lemma AbsentLeadIsNoOccurrence(s: string, pat: string)
    requires pat != [] && pat[0] !in s
    ensures !Occurs(pat, s)
    decreases |s|
  {
    if |pat| <= |s| {
      assert s[..|pat|][0] == s[0];
      if s != [] {
        assert forall c :: c in s[1..] ==> c in s;
        AbsentLeadIsNoOccurrence(s[1..], pat);
      }
    }
  }

  /** Escaping `c` with the escape character `e`, as in
      `s.replace("'", r"\'")` and `s.replace('/', r'\/')`. */
  function Escape(s: string, c: char, e: char): string
  {
    Replace(s, [c], [e, c])
  }

  /** The inverse of `Escape`: every `e c` pair becomes `c`. */
  function Unescape(s: string, c: char, e: char): string
  {
    Replace(s, [e, c], [c])
  }

  /** Escaping works character by character. */
  lemma EscapeCons(x: char, t: string, c: char, e: char)
    ensures Escape([x] + t, c, e) == (if x == c then [e, c] else [x]) + Escape(t, c, e)
  {
    var s := [x] + t;
    assert s[..1] == [x];
    assert s[1..] == t;
  }

  /** An escaped text never starts with the escaped character. */
  lemma EscapeHead(t: string, c: char, e: char)
    requires c != e && t != []
    ensures Escape(t, c, e) != [] && Escape(t, c, e)[0] != c
  {
    EscapeCons(t[0], t[1..], c, e);
    assert [t[0]] + t[1..] == t;
  }

  /** Unescaping undoes escaping, for any text, provided the escape
      character differs from the escaped one. */
  lemma {:induction false} EscapeRoundTrip(s: string, c: char, e: char)
    requires c != e
    ensures Unescape(Escape(s, c, e), c, e) == s
    decreases |s|
  {
    if s != [] {
      var x, t := s[0], s[1..];
      assert s == [x] + t;
      EscapeCons(x, t, c, e);
      var et := Escape(t, c, e);
      EscapeRoundTrip(t, c, e);
      if x == c {
        var w := [e, c] + et;
        assert w[..2] == [e, c];
        assert w[2..] == et;
      } else {
        var w := [x] + et;
        if |w| >= 2 {
          assert t != [];
          EscapeHead(t, c, e);
          assert w[1] == et[0] != c;
          assert w[..2][1] != [e, c][1];
          assert w[1..] == et;
        }
      }
    }
  }

  /** In an escaped text every occurrence of the escaped character comes
      right after the escape character. */
  lemma {:induction false} EscapedArePreceded(s: string, c: char, e: char)
    requires c != e
    ensures var r := Escape(s, c, e);
      forall i :: 0 <= i < |r| && r[i] == c ==> 0 < i && r[i - 1] == e
    decreases |s|
  {
    if s != [] {
      var x, t := s[0], s[1..];
      assert s == [x] + t;
      EscapeCons(x, t, c, e);
      EscapedArePreceded(t, c, e);
      var et := Escape(t, c, e);
      var pre := if x == c then [e, c] else [x];
      var r := pre + et;
      forall i | 0 <= i < |r| && r[i] == c
        ensures 0 < i && r[i - 1] == e
      {
        if i >= |pre| {
          assert r[i] == et[i - |pre|];
          if i - |pre| > 0 {
            assert r[i - 1] == et[i - |pre| - 1];
          }
        }
      }
    }
  }

  /** Python's `s.split(sep)` for a one-character separator: never empty,
      and no part holds the separator. */
  function Split(s: string, sep: char): (parts: seq<string>)
    ensures |parts| >= 1
    ensures forall p :: p in parts ==> sep !in p
    decreases |s|
  {
    if s == [] then [""]
    else
      var rest := Split(s[1..], sep);
      if s[0] == sep then [""] + rest
      else [[s[0]] + rest[0]] + rest[1..]
  }

  /** Python's `sep.join(parts)` for a one-character separator. */
  function Join(parts: seq<string>, sep: char): string
    decreases |parts|
  {
    if parts == [] then ""
    else if |parts| == 1 then parts[0]
    else parts[0] + [sep] + Join(parts[1..], sep)
  }

  /** Joining the parts of a split gives back the text. */
  lemma {:induction false} JoinSplit(s: string, sep: char)
    ensures Join(Split(s, sep), sep) == s
    decreases |s|
  {
    if s != [] {
      var rest := Split(s[1..], sep);
      JoinSplit(s[1..], sep);
      if s[0] == sep {
        assert ([""] + rest)[1..] == rest;
      } else {
        var parts := [[s[0]] + rest[0]] + rest[1..];
        if |rest| > 1 {
          assert parts[1..] == rest[1..];
        }
      }
    }
  }

  /** Splitting a text free of the separator gives it back whole. */
  lemma {:induction false} SplitNoSeparator(a: string, sep: char)
    requires sep !in a
    ensures Split(a, sep) == [a]
    decreases |a|
  {
    if a != [] {
      assert a[0] in a;
      assert forall c :: c in a[1..] ==> c in a;
      SplitNoSeparator(a[1..], sep);
      assert [a[0]] + a[1..] == a;
    }
  }

  /** Splitting stops at the first separator. */
  lemma {:induction false} SplitAtSeparator(a: string, b: string, sep: char)
    requires sep !in a
    ensures Split(a + [sep] + b, sep) == [a] + Split(b, sep)
    decreases |a|
  {
    var s := a + [sep] + b;
    if a == [] {
      assert s[1..] == b;
    } else {
      assert s[1..] == a[1..] + [sep] + b;
      assert forall c :: c in a[1..] ==> c in a;
      SplitAtSeparator(a[1..], b, sep);
      assert [a[0]] + a[1..] == a;
    }
  }

  /** Splitting a join gives back the parts, when no part holds the
      separator: `Split` and `Join` are inverse on both sides. */
  lemma {:induction false} SplitJoin(parts: seq<string>, sep: char)
    requires |parts| >= 1
    requires forall p :: p in parts ==> sep !in p
    ensures Split(Join(parts, sep), sep) == parts
    decreases |parts|
  {
    if |parts| == 1 {
      SplitNoSeparator(parts[0], sep);
    } else {
      assert parts[0] in parts;
      assert forall p :: p in parts[1..] ==> p in parts;
      SplitJoin(parts[1..], sep);
      SplitAtSeparator(parts[0], Join(parts[1..], sep), sep);
      assert [parts[0]] + parts[1..] == parts;
    }
  }

  /** The longest prefix of `s` free of `c`, and the rest of `s`, which is
      empty or starts with `c`. */
  function Until(s: string, c: char): (r: (string, string))
    ensures r.0 + r.1 == s
    ensures c !in r.0
    ensures r.1 != [] ==> r.1[0] == c
    decreases |s|
  {
    if s == [] then ("", "")
    else if s[0] == c then ("", s)
    else
      var t := Until(s[1..], c);
      assert [s[0]] + (t.0 + t.1) == s;
      ([s[0]] + t.0, t.1)
  }

  /** `Until` splits at the first `c` and nowhere else. */
  lemma {:induction false} UntilSplits(a: string, b: string, c: char)
    requires c !in a
    requires b != [] ==> b[0] == c
    ensures Until(a + b, c) == (a, b)
    decreases |a|
  {
    if a == [] {
      assert a + b == b;
    } else {
      assert a[0] in a;
      assert (a + b)[1..] == a[1..] + b;
      assert forall x :: x in a[1..] ==> x in a;
      UntilSplits(a[1..], b, c);
      assert [a[0]] + a[1..] == a;
    }
  }
}
