/**
 * Keyed tables (a SQL table by primary key, a Redis key space) as maps, and
 * the fold that models "for each item, read-modify-write the row it names".
 */
module Tables {
  import opened Wrappers

  /** The row under `k`, if any: a `SELECT ... WHERE key = k`. */
  function Get<V>(t: map<string, V>, k: string): (r: Option<V>)
    ensures r.Some? <==> k in t
    ensures r.Some? ==> r.value == t[k]
  {
    if k in t then Some(t[k]) else None
  }

  /** Stores `v` under `k`; `None` leaves no row there. Other rows are untouched. */
  function Put<V>(t: map<string, V>, k: string, v: Option<V>): (r: map<string, V>)
    ensures Get(r, k) == v
    ensures forall j :: j != k ==> Get(r, j) == Get(t, j)
  {
    if v.Some? then t[k := v.value] else t - {k}
  }

  /** Left fold: `step` applied to each element of `xs` in order. */
  function Fold<S, X>(s: S, xs: seq<X>, step: (S, X) -> S): S
    decreases |xs|
  {
    if xs == [] then s else step(Fold(s, xs[..|xs| - 1], step), xs[|xs| - 1])
  }

  /** For each `x` in order, the row under `key(x)` becomes `upd(row, x)`. */
  function ApplyAll<V, X>(t: map<string, V>, xs: seq<X>, key: X -> string, upd: (Option<V>, X) -> Option<V>): map<string, V>
    decreases |xs|
  {
    if xs == [] then t
    else
      var prev := ApplyAll(t, xs[..|xs| - 1], key, upd);
      var x := xs[|xs| - 1];
      Put(prev, key(x), upd(Get(prev, key(x)), x))
  }

  /** The fold over the first `i + 1` elements is the fold over the first `i` and one more update. */
  lemma ApplyAllPrefix<V, X>(t: map<string, V>, xs: seq<X>, i: nat, key: X -> string, upd: (Option<V>, X) -> Option<V>)
    requires i < |xs|
    ensures var prev := ApplyAll(t, xs[..i], key, upd);
            ApplyAll(t, xs[..i + 1], key, upd) == Put(prev, key(xs[i]), upd(Get(prev, key(xs[i])), xs[i]))
  {
    assert xs[..i + 1][..i] == xs[..i];
  }

  /** The loop form of `ApplyAll`: one read-modify-write per element, in order. */
  method ApplyEach<V, X>(t: map<string, V>, xs: seq<X>, key: X -> string, upd: (Option<V>, X) -> Option<V>)
    returns (r: map<string, V>)
    ensures r == ApplyAll(t, xs, key, upd)
  {
    r := t;
    var i := 0;
    while i < |xs|
      invariant 0 <= i <= |xs|
      invariant r == ApplyAll(t, xs[..i], key, upd)
    {
      ApplyAllPrefix(t, xs, i, key, upd);
      r := Put(r, key(xs[i]), upd(Get(r, key(xs[i])), xs[i]));
      i := i + 1;
    }
    assert xs[..|xs|] == xs;
  }

  /** Rows that no element names are left as they were. */
  lemma {:induction false} ApplyAllElsewhere<V, X>(t: map<string, V>, xs: seq<X>, key: X -> string,
                                                      upd: (Option<V>, X) -> Option<V>, k: string)
    requires forall i :: 0 <= i < |xs| ==> key(xs[i]) != k
    ensures Get(ApplyAll(t, xs, key, upd), k) == Get(t, k)
    decreases |xs|
  {
    if xs != [] {
      ApplyAllElsewhere(t, xs[..|xs| - 1], key, upd, k);
    }
  }

  /** A row named by exactly one element is updated exactly once. */
  lemma {:induction false} ApplyAllOnce<V, X>(t: map<string, V>, xs: seq<X>, key: X -> string,
                                                 upd: (Option<V>, X) -> Option<V>, k: string, j: nat)
    requires j < |xs| && key(xs[j]) == k
    requires forall i :: 0 <= i < |xs| && i != j ==> key(xs[i]) != k
    ensures Get(ApplyAll(t, xs, key, upd), k) == upd(Get(t, k), xs[j])
    decreases |xs|
  {
    var init := xs[..|xs| - 1];
    if j == |xs| - 1 {
      ApplyAllElsewhere(t, init, key, upd, k);
    } else {
      ApplyAllOnce(t, init, key, upd, k, j);
    }
  }

  /** Two tables that agree on every lookup are the same table. */
  lemma SameLookups<V>(a: map<string, V>, b: map<string, V>)
    requires forall k :: Get(a, k) == Get(b, k)
    ensures a == b
  {
    forall k ensures k in a <==> k in b {
      assert Get(a, k).Some? <==> Get(b, k).Some?;
    }
    assert a.Keys == b.Keys;
    forall k | k in a ensures a[k] == b[k] {
      assert Get(a, k) == Get(b, k);
    }
  }

  /** Storing a key and then deleting it leaves the table as deleting it alone would. */
  lemma DeleteAfterStore<V>(m: map<string, V>, k: string, v: V)
    ensures m[k := v] - {k} == m - {k}
  {
    assert (m[k := v] - {k}).Keys == (m - {k}).Keys;
  }
}
