/** Selection of the files of a directory whose contents get variable
    substitution (`find_files_for_replace`). The regular-expression search
    is a parameter `matches(pattern, name)`, which answers
    `re.search(pattern, name)`; `AnchoredMatch` is one concrete choice that
    covers the configured patterns. */
module Templates {
  import opened Text
  import opened Paths
  import opened Config

  /** `re.findall("(p1|p2|...)", name)` is not empty. With no patterns the
      expression is `()`, which matches the empty string, so every name is
      wanted. */
  predicate Wanted(matches: (string, string) -> bool, patterns: seq<string>, name: string)
  {
    patterns == [] || exists i :: 0 <= i < |patterns| && matches(patterns[i], name)
  }

  /** The wanted files of one directory, joined with the directory, in
      listing order. */
  function SelectedIn(matches: (string, string) -> bool, patterns: seq<string>, root: string, names: seq<string>): seq<string>
    decreases |names|
  {
    if names == [] then []
    else
      var last := names[|names| - 1];
      SelectedIn(matches, patterns, root, names[..|names| - 1])
      + (if Wanted(matches, patterns, last) then [PathJoin(root, last)] else [])
  }

  /** The wanted files of a whole walk, in walk order. */
  function Selected(matches: (string, string) -> bool, patterns: seq<string>, walk: seq<WalkEntry>): seq<string>
    decreases |walk|
  {
    if walk == [] then []
    else
      var last := walk[|walk| - 1];
      Selected(matches, patterns, walk[..|walk| - 1]) + SelectedIn(matches, patterns, last.root, last.files)
  }

  /** `find_files_for_replace(path, patterns)`: walks the directory and
      keeps every file whose base name a pattern matches. */
  method FindFilesForReplace(fs: FileSystem, path: string, patterns: seq<string>, matches: (string, string) -> bool)
    returns (candidates: seq<string>)
    ensures candidates == Selected(matches, patterns, Walk(fs, path))
  {
    var walk := Walk(fs, path);
    candidates := [];
    var i := 0;
    while i < |walk|
      invariant 0 <= i <= |walk|
      invariant candidates == Selected(matches, patterns, walk[..i])
    {
      var entry := walk[i];
      var j := 0;
      while j < |entry.files|
        invariant 0 <= j <= |entry.files|
        invariant candidates == Selected(matches, patterns, walk[..i]) + SelectedIn(matches, patterns, entry.root, entry.files[..j])
      {
        var file := entry.files[j];
        if Wanted(matches, patterns, file) {
          candidates := candidates + [PathJoin(entry.root, file)];
        }
        assert entry.files[..j + 1][..j] == entry.files[..j];
        j := j + 1;
      }
      assert entry.files[..j] == entry.files;
      assert walk[..i + 1][..i] == walk[..i];
      i := i + 1;
    }
    assert walk[..i] == walk;
  }

  /** `x` is a wanted file of the directory listing `entry`, joined with
      the directory. */
  predicate WantedIn(matches: (string, string) -> bool, patterns: seq<string>, entry: WalkEntry, x: string)
  {
    exists j :: 0 <= j < |entry.files| && Wanted(matches, patterns, entry.files[j]) && x == PathJoin(entry.root, entry.files[j])
  }

  /** Within one directory a path is selected exactly when it is a listed
      file, joined with the directory, whose name is wanted: nothing
      unwanted is returned and nothing wanted is missed. */
  lemma {:induction false} SelectedInMembership(matches: (string, string) -> bool, patterns: seq<string>, entry: WalkEntry, x: string)
    ensures x in SelectedIn(matches, patterns, entry.root, entry.files) <==> WantedIn(matches, patterns, entry, x)
    decreases |entry.files|
  {
    var names := entry.files;
    if names != [] {
      var init := WalkEntry(entry.root, names[..|names| - 1]);
      SelectedInMembership(matches, patterns, init, x);
      if WantedIn(matches, patterns, entry, x) {
        var j :| 0 <= j < |names| && Wanted(matches, patterns, names[j]) && x == PathJoin(entry.root, names[j]);
        if j < |init.files| {
          assert init.files[j] == names[j];
        }
      }
      if WantedIn(matches, patterns, init, x) {
        var j :| 0 <= j < |init.files| && Wanted(matches, patterns, init.files[j]) && x == PathJoin(entry.root, init.files[j]);
        assert names[j] == init.files[j];
      }
    }
  }

  /** Over a whole walk: a path is selected exactly when it is a wanted
      file of one of the walked directories, joined with that directory. */
  lemma SelectedMembership(matches: (string, string) -> bool, patterns: seq<string>, walk: seq<WalkEntry>, x: string)
    ensures x in Selected(matches, patterns, walk) <==> exists i :: 0 <= i < |walk| && WantedIn(matches, patterns, walk[i], x)
  {
    if x in Selected(matches, patterns, walk) {
      SelectedSound(matches, patterns, walk, x);
    }
    if exists i :: 0 <= i < |walk| && WantedIn(matches, patterns, walk[i], x) {
      var i :| 0 <= i < |walk| && WantedIn(matches, patterns, walk[i], x);
      SelectedComplete(matches, patterns, walk, i, x);
    }
  }

  /** Nothing is selected that is not a wanted file of the walk. */
  lemma {:induction false} SelectedSound(matches: (string, string) -> bool, patterns: seq<string>, walk: seq<WalkEntry>, x: string)
    requires x in Selected(matches, patterns, walk)
    ensures exists i :: 0 <= i < |walk| && WantedIn(matches, patterns, walk[i], x)
    decreases |walk|
  {
    var init, last := walk[..|walk| - 1], walk[|walk| - 1];
    if x in Selected(matches, patterns, init) {
      SelectedSound(matches, patterns, init, x);
      var i :| 0 <= i < |init| && WantedIn(matches, patterns, init[i], x);
      assert walk[i] == init[i];
    } else {
      SelectedInMembership(matches, patterns, last, x);
      assert WantedIn(matches, patterns, walk[|walk| - 1], x);
    }
  }

  /** Every wanted file of the walk is selected. */
  lemma {:induction false} SelectedComplete(matches: (string, string) -> bool, patterns: seq<string>, walk: seq<WalkEntry>, i: nat, x: string)
    requires i < |walk| && WantedIn(matches, patterns, walk[i], x)
    ensures x in Selected(matches, patterns, walk)
    decreases |walk|
  {
    var init, last := walk[..|walk| - 1], walk[|walk| - 1];
    if i == |walk| - 1 {
      SelectedInMembership(matches, patterns, last, x);
    } else {
      assert init[i] == walk[i];
      SelectedComplete(matches, patterns, init, i, x);
    }
  }

  /** Selection keeps walk order: the selection of a walk split in two is
      the selection of the first part followed by that of the second. */
  lemma {:induction false} SelectedAppend(matches: (string, string) -> bool, patterns: seq<string>, a: seq<WalkEntry>, b: seq<WalkEntry>)
    ensures Selected(matches, patterns, a + b) == Selected(matches, patterns, a) + Selected(matches, patterns, b)
    decreases |b|
  {
    if b == [] {
      assert a + b == a;
    } else {
      var b0 := b[..|b| - 1];
      assert (a + b)[..|a + b| - 1] == a + b0;
      assert (a + b)[|a + b| - 1] == b[|b| - 1];
      SelectedAppend(matches, patterns, a, b0);
    }
  }

  /** Within one directory, selection keeps listing order in the same way. */
  lemma {:induction false} SelectedInAppend(matches: (string, string) -> bool, patterns: seq<string>, root: string, a: seq<string>, b: seq<string>)
    ensures SelectedIn(matches, patterns, root, a + b)
         == SelectedIn(matches, patterns, root, a) + SelectedIn(matches, patterns, root, b)
    decreases |b|
  {
    if b == [] {
      assert a + b == a;
    } else {
      var b0 := b[..|b| - 1];
      assert (a + b)[..|a + b| - 1] == a + b0;
      assert (a + b)[|a + b| - 1] == b[|b| - 1];
      SelectedInAppend(matches, patterns, root, a, b0);
    }
  }

  /** `c` matches the pattern character `pc`: `.` matches any character. */
  predicate CharMatches(pc: char, c: char)
  {
    pc == '.' || pc == c
  }

  /** `re.search(p, name)` for a pattern made of literal characters and `.`
      and ending in `$`, the shape of every configured pattern
      (`.conf$`, `.yml$`, `default$`): the name ends with text the body of
      the pattern matches. Other patterns match nothing here. */
  predicate AnchoredMatch(p: string, name: string)
  {
    && p != [] && p[|p| - 1] == '$'
    && var body := p[..|p| - 1];
    && |body| <= |name|
    && forall i :: 0 <= i < |body| ==> CharMatches(body[i], name[|name| - |body| + i])
  }

  /** The `.` of `.conf$` is a wildcard: a name that merely ends in any
      character followed by `conf`, with no dot, is selected for
      substitution too. */
  lemma DotIsWildcard(patterns: seq<string>)
    requires ".conf$" in patterns
    ensures Wanted(AnchoredMatch, patterns, "nginxconf")
    ensures !AnchoredMatch(".conf$", "conf")
  {
    var i :| 0 <= i < |patterns| && patterns[i] == ".conf$";
    var body := ".conf";
    assert ".conf$"[..5] == body;
    assert forall k :: 0 <= k < 5 ==> CharMatches(body[k], "nginxconf"[4 + k]);
    assert AnchoredMatch(patterns[i], "nginxconf");
  }
}
