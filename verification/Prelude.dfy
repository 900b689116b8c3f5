/**
  Shared vocabulary: results, saturating arithmetic, sums over finite maps, folds over
  finite sets whose steps commute, and duplicate-free sequences.
*/
module Prelude {

  datatype Option<T> = None | Some(value: T) {
    function GetOr(default: T): T {
      if Some? then value else default
    }
  }

  /** What a dispatchable returns: a value, or the error that makes the runtime roll back. */
  datatype Result<T, E> = Ok(value: T) | Err(error: E) {
    predicate IsFailure() {
      Err?
    }

    function PropagateFailure<U>(): Result<U, E>
      requires Err?
    {
      Err(error)
    }

    function Extract(): T
      requires Ok?
    {
      value
    }

    function GetOr(default: T): T {
      if Ok? then value else default
    }
  }

  const U32_MAX: nat := 0xFFFF_FFFF

  function Min(x: int, y: int): int {
    if x <= y then x else y
  }

  function Max(x: int, y: int): int {
    if x <= y then y else x
  }

  /** `saturating_add` on an unsigned integer whose largest value is `max`. */
  function SatAdd(x: nat, y: nat, max: nat): (z: nat) {
    if x + y <= max then x + y else max
  }

  /** `saturating_mul` on an unsigned integer whose largest value is `max`. */
  function SatMul(x: nat, y: nat, max: nat): (z: nat) {
    if x * y <= max then x * y else max
  }

  /** `saturating_sub` on an unsigned integer. */
  function SatSub(x: nat, y: nat): (z: nat) {
    if y <= x then x - y else 0
  }

  /** A storage map read with `ValueQuery`: a missing key reads as zero. */
  function Get<K>(m: map<K, nat>, k: K): nat {
    if k in m then m[k] else 0
  }

  /** The entries of a double map under its first key. */
  function Prefix<K, L, V>(m: map<K, map<L, V>>, k: K): map<L, V> {
    if k in m then m[k] else map[]
  }

  // ---------- sums over maps ----------

  ghost function SumMap<K>(m: map<K, nat>): nat
    decreases |m|
  {
    if m == map[] then 0
    else
      var k :| k in m;
      m[k] + SumMap(m - {k})
  }

  /** The sum does not depend on the order in which the keys are visited. */
  lemma {:induction false} SumRemove<K>(m: map<K, nat>, k: K)
    requires k in m
    ensures SumMap(m) == m[k] + SumMap(m - {k})
    decreases |m|
  {
    var j :| j in m && SumMap(m) == m[j] + SumMap(m - {j});
    if j != k {
      SumRemove(m - {j}, k);
      SumRemove(m - {k}, j);
      assert (m - {j}) - {k} == (m - {k}) - {j};
    }
  }

  lemma SumPut<K>(m: map<K, nat>, k: K, v: nat)
    ensures SumMap(m[k := v]) == SumMap(m) - Get(m, k) + v
    ensures Get(m, k) <= SumMap(m)
  {
    SumRemove(m[k := v], k);
    if k in m {
      SumRemove(m, k);
      assert m[k := v] - {k} == m - {k};
    } else {
      assert m[k := v] - {k} == m;
    }
  }

  lemma SumDrop<K>(m: map<K, nat>, k: K)
    ensures SumMap(m - {k}) == SumMap(m) - Get(m, k)
    ensures Get(m, k) <= SumMap(m)
  {
    if k in m {
      SumRemove(m, k);
    } else {
      assert m - {k} == m;
    }
  }

  lemma SumSingle<K>(k: K, v: nat)
    ensures SumMap(map[k := v]) == v
  {
    SumRemove(map[k := v], k);
    assert map[k := v] - {k} == map[];
  }

  // ---------- folds over sets ----------

  /** Applies `step` to every element of `ks`, in some order. */
  ghost function FoldSet<S, K>(step: (S, K) -> S, s: S, ks: set<K>): S
    decreases |ks|
  {
    if ks == {} then s
    else
      var k :| k in ks;
      FoldSet(step, step(s, k), ks - {k})
  }

  ghost predicate Commutes<S(!new), K(!new)>(step: (S, K) -> S) {
    forall s, j, k :: j != k ==> step(step(s, j), k) == step(step(s, k), j)
  }

  /** When the steps commute, any element may be taken first. */
  lemma {:induction false} FoldAny<S(!new), K(!new)>(step: (S, K) -> S, s: S, ks: set<K>, k: K)
    requires Commutes(step)
    requires k in ks
    ensures FoldSet(step, s, ks) == FoldSet(step, step(s, k), ks - {k})
    decreases |ks|
  {
    var j :| j in ks && FoldSet(step, s, ks) == FoldSet(step, step(s, j), ks - {j});
    if j != k {
      FoldAny(step, step(s, j), ks - {j}, k);
      FoldAny(step, step(s, k), ks - {k}, j);
      assert (ks - {j}) - {k} == (ks - {k}) - {j};
      assert step(step(s, j), k) == step(step(s, k), j);
    }
  }

  // ---------- duplicate-free sequences ----------

  predicate Distinct<T(==)>(s: seq<T>) {
    forall i, j :: 0 <= i < j < |s| ==> s[i] != s[j]
  }

  function Elements<T>(s: seq<T>): set<T> {
    set x | x in s
  }

  lemma {:induction false} DistinctCardinality<T>(s: seq<T>)
    requires Distinct(s)
    ensures |Elements(s)| == |s|
  {
    if s == [] {
      assert Elements(s) == {};
    } else {
      var init := s[..|s| - 1];
      DistinctCardinality(init);
      assert s == init + [s[|s| - 1]];
      assert Elements(s) == Elements(init) + {s[|s| - 1]};
    }
  }

  lemma {:induction false} DistinctCounts<T>(s: seq<T>, x: T)
    requires Distinct(s)
    ensures multiset(s)[x] == if x in s then 1 else 0
  {
    if s != [] {
      var n := |s| - 1;
      DistinctCounts(s[..n], x);
      assert s == s[..n] + [s[n]];
    }
  }

  lemma TwiceCounts<T>(s: seq<T>, i: nat, j: nat)
    requires i < j < |s| && s[i] == s[j]
    ensures multiset(s)[s[i]] >= 2
  {
    assert s == s[..j] + [s[j]] + s[j + 1..];
    assert s[i] in s[..j];
  }

  lemma SubsetFull<T>(s: set<T>, t: set<T>)
    requires s <= t
    ensures |s| <= |t| && (|s| == |t| ==> s == t)
  {
    var rest := t - s;
    assert t == s + rest;
    if |s| == |t| {
      assert |rest| == 0;
    }
  }
}
