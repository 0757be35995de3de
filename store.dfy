/** The variable store of the deployment script: a Python dict from
    variable names to values, which keeps the order in which names were
    first inserted, and the `$NAME` substitution that folds over it. */
module VarStore {
  import opened Wrappers
  import opened Text

  /** A dict as its entries in insertion order. */
  type Store = seq<(string, string)>

  function Keys(st: Store): (ks: seq<string>)
    ensures |ks| == |st|
    decreases |st|
  {
    if st == [] then [] else [st[0].0] + Keys(st[1..])
  }

  /** No name is present twice, as in every dict. */
  predicate Distinct(st: Store)
    decreases |st|
  {
    st == [] || (st[0].0 !in Keys(st[1..]) && Distinct(st[1..]))
  }

  /** `d.get(k)`. */
  function Get(st: Store, k: string): Option<string>
    decreases |st|
  {
    if st == [] then None
    else if st[0].0 == k then Some(st[0].1)
    else Get(st[1..], k)
  }

  /** `d[k] = v`: an existing name keeps its place and takes the new
      value; a new name goes last. */
  function Set(st: Store, k: string, v: string): Store
    decreases |st|
  {
    if st == [] then [(k, v)]
    else if st[0].0 == k then [(k, v)] + st[1..]
    else [st[0]] + Set(st[1..], k, v)
  }

  /** `d.update(other)`: `d[k] = v` for each entry of `other`, in order. */
  function Update(st: Store, other: Store): Store
    decreases |other|
  {
    if other == [] then st
    else Update(Set(st, other[0].0, other[0].1), other[1..])
  }

  /** A name has a value exactly when it is one of the keys. */
  lemma {:induction false} GetPresent(st: Store, k: string)
    ensures Get(st, k).Some? <==> k in Keys(st)
    decreases |st|
  {
    if st != [] {
      GetPresent(st[1..], k);
    }
  }

  /** After `d[k] = v`, `k` maps to `v`, every other name keeps its value,
      and the order of the names is the old one, with `k` last if it is
      new. */
  lemma {:induction false} SetSpec(st: Store, k: string, v: string)
    ensures Get(Set(st, k, v), k) == Some(v)
    ensures forall n :: n != k ==> Get(Set(st, k, v), n) == Get(st, n)
    ensures Keys(Set(st, k, v)) == if k in Keys(st) then Keys(st) else Keys(st) + [k]
    ensures Distinct(st) ==> Distinct(Set(st, k, v))
    decreases |st|
  {
    if st != [] && st[0].0 != k {
      SetSpec(st[1..], k, v);
      var r := Set(st, k, v);
      assert r[1..] == Set(st[1..], k, v);
      if k !in Keys(st[1..]) {
        assert Keys(st) + [k] == [st[0].0] + (Keys(st[1..]) + [k]);
      }
    } else if st != [] {
      assert ([(k, v)] + st[1..])[1..] == st[1..];
    }
  }

  /** After `d.update(other)` a name has the value `other` gives it, if
      any, and its old value otherwise: the later layer wins. */
  lemma {:induction false} UpdateGet(st: Store, other: Store, k: string)
    requires Distinct(other)
    ensures Get(Update(st, other), k) == if k in Keys(other) then Get(other, k) else Get(st, k)
    decreases |other|
  {
    if other != [] {
      var k0, v0 := other[0].0, other[0].1;
      UpdateGet(Set(st, k0, v0), other[1..], k);
      SetSpec(st, k0, v0);
      if k == k0 {
        GetPresent(other[1..], k);
      }
    }
  }

  /** `d.update(other)` keeps the names of `d` in their order, in front of
      the names it adds, and keeps the names distinct. */
  lemma {:induction false} UpdateKeys(st: Store, other: Store)
    ensures |Keys(Update(st, other))| >= |Keys(st)|
    ensures Keys(Update(st, other))[..|st|] == Keys(st)
    ensures forall n :: n in Keys(Update(st, other)) <==> n in Keys(st) || n in Keys(other)
    ensures Distinct(st) ==> Distinct(Update(st, other))
    decreases |other|
  {
    if other != [] {
      var k0, v0 := other[0].0, other[0].1;
      var st1 := Set(st, k0, v0);
      SetSpec(st, k0, v0);
      UpdateKeys(st1, other[1..]);
      assert Keys(st1)[..|st|] == Keys(st);
      assert Keys(Update(st, other))[..|st|] == Keys(st1)[..|st1|][..|st|];
    }
  }

  /** The names of two stores one after the other. */
  lemma {:induction false} KeysAppend(a: Store, b: Store)
    ensures Keys(a + b) == Keys(a) + Keys(b)
    decreases |a|
  {
    if a != [] {
      assert (a + b)[1..] == a[1..] + b;
      KeysAppend(a[1..], b);
    } else {
      assert a + b == b;
    }
  }

  /** Looking a name up in a store with one more entry at the end finds the
      old value if there was one, and the new entry's otherwise. */
  lemma {:induction false} GetSnoc(st: Store, e: (string, string), k: string)
    ensures Get(st + [e], k) == if Get(st, k).Some? then Get(st, k) else if e.0 == k then Some(e.1) else None
    decreases |st|
  {
    if st != [] {
      assert (st + [e])[1..] == st[1..] + [e];
      GetSnoc(st[1..], e, k);
    } else {
      assert st + [e] == [e];
    }
  }

  /** A store with one more entry at the end has distinct names exactly
      when the store has and the new name is not among them. */
  lemma {:induction false} DistinctSnoc(st: Store, e: (string, string))
    ensures Distinct(st + [e]) <==> Distinct(st) && e.0 !in Keys(st)
    decreases |st|
  {
    if st != [] {
      assert (st + [e])[1..] == st[1..] + [e];
      DistinctSnoc(st[1..], e);
      KeysAppend(st[1..], [e]);
    } else {
      assert st + [e] == [e];
    }
  }

  /** `replace_variables`: for each entry, in the store's order, every
      `$` + name in `s` is replaced by the value, by plain substring
      replacement with no regard to where a name ends. */
  function ReplaceVariables(vars: Store, s: string): string
    decreases |vars|
  {
    if vars == [] then s
    else ReplaceVariables(vars[1..], Replace(s, "$" + vars[0].0, vars[0].1))
  }

  /** A text in which no `$` + name of the store occurs comes back
      unchanged: unknown names are left as literal text. */
  lemma {:induction false} ReplaceVariablesKeepsUnknown(vars: Store, s: string)
    requires forall i :: 0 <= i < |vars| ==> !Occurs("$" + vars[i].0, s)
    ensures ReplaceVariables(vars, s) == s
    decreases |vars|
  {
    if vars != [] {
      assert Replace(s, "$" + vars[0].0, vars[0].1) == s;
      forall i | 0 <= i < |vars[1..]|
        ensures !Occurs("$" + vars[1..][i].0, s)
      {
        assert vars[1..][i] == vars[i + 1];
      }
      ReplaceVariablesKeepsUnknown(vars[1..], s);
    }
  }

  /** An empty store, or a text without `$`, leaves the text unchanged. */
  lemma ReplaceVariablesIdentity(vars: Store, s: string)
    requires vars == [] || '$' !in s
    ensures ReplaceVariables(vars, s) == s
  {
    if vars != [] {
      forall i | 0 <= i < |vars|
        ensures !Occurs("$" + vars[i].0, s)
      {
        AbsentLeadIsNoOccurrence(s, "$" + vars[i].0);
      }
      ReplaceVariablesKeepsUnknown(vars, s);
    }
  }

  /** The substitution is the sequential `str.replace` over the entries in
      order: adding an entry at the end replaces its name in what the
      earlier entries produced. */
  lemma {:induction false} ReplaceVariablesInOrder(vars: Store, k: string, v: string, s: string)
    ensures ReplaceVariables(vars + [(k, v)], s) == Replace(ReplaceVariables(vars, s), "$" + k, v)
    decreases |vars|
  {
    if vars == [] {
      assert ReplaceVariables([(k, v)], s) == ReplaceVariables([], Replace(s, "$" + k, v));
    } else {
      assert (vars + [(k, v)])[1..] == vars[1..] + [(k, v)];
      ReplaceVariablesInOrder(vars[1..], k, v, Replace(s, "$" + vars[0].0, vars[0].1));
    }
  }

  /** No token boundary: when a name is applied before a longer name that
      extends it (`VERSION` before `VERSIONING`), the shorter one rewrites
      the front of `$` + longer name and the longer value never appears. */
  lemma ShorterNameCaptures(k: string, t: string, v: string, w: string)
    requires t != [] && '$' !in t && '$' !in v
    ensures ReplaceVariables([(k, v), (k + t, w)], "$" + k + t) == v + t
  {
    var s := "$" + k + t;
    assert s[..|"$" + k|] == "$" + k;
    assert s[|"$" + k|..] == t;
    ReplaceVariablesIdentity([(k, v)], t);
    assert Replace(t, "$" + k, v) == t;
    assert Replace(s, "$" + k, v) == v + t;
    assert '$' !in v + t;
    AbsentLeadIsNoOccurrence(v + t, "$" + (k + t));
    assert "$" + k + t == "$" + (k + t);
    var vars := [(k, v), (k + t, w)];
    assert vars[1..] == [(k + t, w)];
    assert vars[1..][1..] == [];
    calc {
      ReplaceVariables(vars, s);
      ReplaceVariables(vars[1..], v + t);
      ReplaceVariables([], Replace(v + t, "$" + (k + t), w));
      v + t;
    }
  }

  /** Substitution is not idempotent: a value that holds `$` + an earlier
      name is left as it is by one pass and rewritten by the next. */
  lemma ValueReintroducesName(a: string, b: string, x: string)
    requires '$' !in a && '$' !in b && '$' !in x
    requires !StartsWith(a, b)
    ensures ReplaceVariables([(a, x), (b, "$" + a)], "$" + b) == "$" + a
    ensures ReplaceVariables([(a, x), (b, "$" + a)], "$" + a) == x
  {
    var vars := [(a, x), (b, "$" + a)];
    assert vars[1..] == [(b, "$" + a)];
    var sb, sa := "$" + b, "$" + a;
    // first pass over "$b"
    assert sb[1..] == b;
    AbsentLeadIsNoOccurrence(b, sa);
    if |sb| >= |sa| {
      assert sb[..|sa|][1..] == b[..|a|] != a == sa[1..];
      assert Replace(sb, sa, x) == [sb[0]] + Replace(sb[1..], sa, x);
    }
    assert Replace(sb, sa, x) == sb;
    assert sb[..|sb|] == sb && sb[|sb|..] == [];
    assert Replace(sb, sb, sa) == sa;
    // second pass over "$a"
    assert sa[..|sa|] == sa && sa[|sa|..] == [];
    assert Replace(sa, sa, x) == x;
    AbsentLeadIsNoOccurrence(x, sb);
    assert vars[1..][1..] == [];
    calc {
      ReplaceVariables(vars, sb);
      ReplaceVariables(vars[1..], sb);
      ReplaceVariables([], Replace(sb, sb, sa));
      sa;
    }
    calc {
      ReplaceVariables(vars, sa);
      ReplaceVariables(vars[1..], x);
      ReplaceVariables([], Replace(x, sb, sa));
      x;
    }
  }
}
