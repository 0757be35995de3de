/** The parts of Python's `posixpath` that the deployment script uses to
    build file names: `join`, `dirname`, `basename` and `relpath`. */
module Paths {
  import opened Text

  /** Python's `p.rfind('/') + 1`: the index just after the last slash,
      or 0 when there is none. */
  function AfterLastSlash(p: string): (i: nat)
    ensures i <= |p|
    ensures i > 0 ==> p[i - 1] == '/'
    ensures '/' !in p[i..]
    decreases |p|
  {
    if p == [] then 0
    else if p[|p| - 1] == '/' then |p|
    else
      var i := AfterLastSlash(p[..|p| - 1]);
      assert p[i..] == p[..|p| - 1][i..] + [p[|p| - 1]];
      i
  }

  /** `os.path.basename`: what follows the last slash. */
  function Basename(p: string): string
  {
    p[AfterLastSlash(p)..]
  }

  /** `h.rstrip('/')`. */
  function StripTrailingSlashes(h: string): string
    decreases |h|
  {
    if h != [] && h[|h| - 1] == '/' then StripTrailingSlashes(h[..|h| - 1]) else h
  }

  /** `os.path.dirname`: everything up to the last slash, without the
      trailing slashes unless it is made of slashes only (then stripping
      would leave nothing). */
  function Dirname(p: string): string
  {
    var head := p[..AfterLastSlash(p)];
    var stripped := StripTrailingSlashes(head);
    if stripped != [] then stripped else head
  }

  /** `os.path.join(a, b)`: an absolute `b` discards `a`; otherwise a slash
      separates the two unless `a` is empty or already ends with one. */
  function PathJoin(a: string, b: string): string
  {
    if StartsWith("/", b) then b
    else if a == [] || a[|a| - 1] == '/' then a + b
    else a + "/" + b
  }

  /** `os.path.relpath(p, base)` for a path `p` inside `base`: `p` with the
      leading `base/` removed. */
  function RelativeTo(p: string, base: string): string
  {
    var b := if base != [] && base[|base| - 1] == '/' then base else base + "/";
    if StartsWith(b, p) then p[|b|..] else p
  }

  /** The directory part of a path whose last slash is single and not the
      leading one is everything before that slash. */
  lemma DirnameAtSingleSlash(p: string, k: nat)
    requires k == AfterLastSlash(p) && k >= 2 && p[k - 2] != '/'
    ensures Dirname(p) == p[..k - 1]
  {
    var head := p[..k];
    assert head[|head| - 1] == '/';
    assert head[..|head| - 1] == p[..k - 1];
    var h1 := p[..k - 1];
    assert h1[|h1| - 1] != '/';
    assert StripTrailingSlashes(h1) == h1;
  }

  /** The last slash of `p/q`, for a name `q` without slashes, is the one
      just before `q`. */
  lemma {:induction false} AfterLastSlashOf(p: string, q: string)
    requires '/' !in q
    ensures AfterLastSlash(p + "/" + q) == |p| + 1
    decreases |q|
  {
    var s := p + "/" + q;
    if q == [] {
      assert s[|s| - 1] == '/';
    } else {
      var q0 := q[..|q| - 1];
      assert q[|q| - 1] in q;
      assert s[..|s| - 1] == p + "/" + q0;
      assert forall ch :: ch in q0 ==> ch in q;
      AfterLastSlashOf(p, q0);
    }
  }

  /** `dirname` and `basename` of `p/q` are `p` and `q`, for a name `q`
      without slashes and a directory `p` not ending in one. */
  lemma DirnameOfJoin(p: string, q: string)
    requires p != [] && p[|p| - 1] != '/' && '/' !in q
    ensures Dirname(p + "/" + q) == p && Basename(p + "/" + q) == q
  {
    var s := p + "/" + q;
    AfterLastSlashOf(p, q);
    assert s[|p| + 1 - 2] == p[|p| - 1];
    DirnameAtSingleSlash(s, |p| + 1);
    assert s[..|p|] == p;
    assert s[|p| + 1..] == q;
  }

  /** A path without a slash is its own base name, in no directory. */
  lemma DirnameNoSlash(p: string)
    requires AfterLastSlash(p) == 0
    ensures Dirname(p) == [] && Basename(p) == p && !StartsWith("/", p)
  {
    assert p[..0] == [];
    if p != [] { assert p[0] in p[0..]; }
  }

  /** Rejoining the directory and base name of a path gives the path back
      when its last slash is single and not the leading one: the
      single-file archive form names exactly the archived file. */
  lemma DirnameBasename(p: string)
    requires var k := AfterLastSlash(p); k == 0 || (k >= 2 && p[k - 2] != '/')
    ensures PathJoin(Dirname(p), Basename(p)) == p
  {
    var k := AfterLastSlash(p);
    if k == 0 {
      DirnameNoSlash(p);
    } else {
      SplitAtLastSlash(p, k);
    }
  }

  /** The case of `DirnameBasename` where the path has a slash. */
  lemma SplitAtLastSlash(p: string, k: nat)
    requires k == AfterLastSlash(p) && k >= 2 && p[k - 2] != '/'
    ensures PathJoin(Dirname(p), Basename(p)) == p
  {
    var d, b := p[..k - 1], p[k..];
    DirnameAtSingleSlash(p, k);
    assert !StartsWith("/", b) by {
      if b != [] { assert b[0] in b; }
    }
    JoinAtSlash(d, b);
    assert p == d + "/" + b by {
      assert p == p[..k - 1] + [p[k - 1]] + p[k..];
    }
  }

  /** Joining a directory that does not end in a slash with a relative
      name puts one slash between them. */
  lemma JoinAtSlash(d: string, b: string)
    requires d != [] && d[|d| - 1] != '/' && !StartsWith("/", b)
    ensures PathJoin(d, b) == d + "/" + b
  {
  }

  /** `join` brings in no character other than those of its parts and a
      slash. */
  lemma PathJoinChars(a: string, b: string, ch: char)
    requires ch != '/' && ch !in a && ch !in b
    ensures ch !in PathJoin(a, b)
  {
  }

  /** Joining a directory onto a path that already carries it: a relative
      directory is added a second time, an absolute one changes nothing. */
  lemma PathJoinTwice(w: string, f: string)
    ensures w != [] && !StartsWith("/", w) && !StartsWith("/", f) ==> PathJoin(w, PathJoin(w, f)) != PathJoin(w, f)
    ensures StartsWith("/", w) ==> PathJoin(w, PathJoin(w, f)) == PathJoin(w, f)
  {
    var p := PathJoin(w, f);
    if w != [] && !StartsWith("/", f) {
      assert |p| >= |w| && p[0] == w[0];
    }
  }

  /** `relpath` takes back what `join` added: the path of a file found
      inside a directory, relative to that directory. */
  lemma RelativeToJoin(base: string, q: string)
    requires base != [] && !StartsWith("/", q)
    ensures RelativeTo(PathJoin(base, q), base) == q
  {
    if base[|base| - 1] == '/' {
      assert (base + q)[..|base|] == base;
      assert (base + q)[|base|..] == q;
    } else {
      assert (base + "/" + q)[..|base| + 1] == base + "/";
      assert (base + "/" + q)[|base| + 1..] == q;
    }
  }
}
