/**
 * The null-preserving accumulator: optional minute counts are added so that
 * the sum is absent only when every summand is absent, and otherwise absent
 * summands count as zero.
 */
module NullSum {
  import opened Wrappers

  /**
   * Both absent gives absent; exactly one absent gives the other; both
   * present gives their sum. This is the same as "absent if both are, else
   * left + right with absent read as 0".
   */
  function AddPreservingNull(left: Option<int>, right: Option<int>): (r: Option<int>)
    ensures r == if left.None? && right.None? then None else Some(left.GetOr(0) + right.GetOr(0))
  {
    if left.None? && right.None? then None
    else if left.None? then right
    else if right.None? then left
    else Some(left.value + right.value)
  }

  lemma AddPreservingNullIdentity(x: Option<int>)
    ensures AddPreservingNull(None, x) == x && AddPreservingNull(x, None) == x
  {
  }

  lemma AddPreservingNullCommutes(a: Option<int>, b: Option<int>)
    ensures AddPreservingNull(a, b) == AddPreservingNull(b, a)
  {
  }

  lemma AddPreservingNullAssociates(a: Option<int>, b: Option<int>, c: Option<int>)
    ensures AddPreservingNull(AddPreservingNull(a, b), c) == AddPreservingNull(a, AddPreservingNull(b, c))
  {
  }

  /** Every value in the list is absent (true of the empty list). */
  predicate AllAbsent(vs: seq<Option<int>>) {
    forall i :: 0 <= i < |vs| ==> vs[i].None?
  }

  /** The sum of the present values, absent ones read as zero (summed from the front). */
  function Total(vs: seq<Option<int>>): int {
    if vs == [] then 0 else vs[0].GetOr(0) + Total(vs[1..])
  }

  lemma {:induction false} TotalSnoc(vs: seq<Option<int>>, v: Option<int>)
    ensures Total(vs + [v]) == Total(vs) + v.GetOr(0)
  {
    if vs == [] {
      assert vs + [v] == [v];
    } else {
      assert (vs + [v])[1..] == vs[1..] + [v];
      TotalSnoc(vs[1..], v);
    }
  }

  /**
   * What an accumulator that starts at null and is folded with
   * AddPreservingNull over the list, front to back, ends with.
   */
  function SumOf(vs: seq<Option<int>>): (r: Option<int>)
    ensures r.None? <==> AllAbsent(vs)
    ensures r.GetOr(0) == Total(vs)  // when present, the value is the total; when absent, the total is 0
  {
    if vs == [] then None
    else
      var init := vs[..|vs| - 1];
      assert vs == init + [vs[|vs| - 1]];
      TotalSnoc(init, vs[|vs| - 1]);
      AddPreservingNull(SumOf(init), vs[|vs| - 1])
  }

  /**
   * The null-preserving sum of the values of a map, taken in no particular
   * key order: the order in which a dictionary's keys are enumerated.
   */
  ghost function SumMap(m: map<string, Option<int>>): Option<int>
    decreases |m|
  {
    if m == map[] then None
    else
      var k :| k in m;
      AddPreservingNull(m[k], SumMap(m - {k}))
  }

  /** Whichever key is taken first, the sum is the same: SumMap does not depend on the enumeration order. */
  lemma {:induction false} SumMapPick(m: map<string, Option<int>>, k: string)
    requires k in m
    ensures SumMap(m) == AddPreservingNull(m[k], SumMap(m - {k}))
    decreases |m|
  {
    var j :| j in m && SumMap(m) == AddPreservingNull(m[j], SumMap(m - {j}));
    if j != k {
      var rest := m - {j} - {k};
      assert m - {k} - {j} == rest;
      SumMapPick(m - {j}, k);
      SumMapPick(m - {k}, j);
      AddPreservingNullAssociates(m[j], m[k], SumMap(rest));
      AddPreservingNullAssociates(m[k], m[j], SumMap(rest));
      AddPreservingNullCommutes(m[j], m[k]);
    }
  }

  /** The values of `m` at the keys `ks`, in that order. */
  function Lookup(m: map<string, Option<int>>, ks: seq<string>): (vs: seq<Option<int>>)
    requires forall i :: 0 <= i < |ks| ==> ks[i] in m
    ensures |vs| == |ks|
    ensures forall i :: 0 <= i < |ks| ==> vs[i] == m[ks[i]]
  {
    if ks == [] then [] else Lookup(m, ks[..|ks| - 1]) + [m[ks[|ks| - 1]]]
  }

  /**
   * Enumerating the keys in any order, each once, and folding their values
   * with AddPreservingNull gives SumMap.
   */
  lemma {:induction false} SumMapInAnyOrder(m: map<string, Option<int>>, ks: seq<string>)
    requires forall i, j :: 0 <= i < j < |ks| ==> ks[i] != ks[j]
    requires forall k :: k in m <==> k in ks
    ensures SumMap(m) == SumOf(Lookup(m, ks))
    decreases |ks|
  {
    if ks == [] {
      assert m == map[];
    } else {
      var last := ks[|ks| - 1];
      var init := ks[..|ks| - 1];
      DropLastKey(m, ks);
      SumMapInAnyOrder(m - {last}, init);
      SumMapLastKey(m, ks);
    }
  }

  /** Without the last of the keys, the map's keys are the others, still each once. */
  lemma DropLastKey(m: map<string, Option<int>>, ks: seq<string>)
    requires ks != []
    requires forall i, j :: 0 <= i < j < |ks| ==> ks[i] != ks[j]
    requires forall k :: k in m <==> k in ks
    ensures var init := ks[..|ks| - 1];
            (forall i, j :: 0 <= i < j < |init| ==> init[i] != init[j])
            && (forall k :: k in m - {ks[|ks| - 1]} <==> k in init)
  {
    var last := ks[|ks| - 1];
    var init := ks[..|ks| - 1];
    assert ks == init + [last];
    assert last !in init;
  }

  /** The step of SumMapInAnyOrder: summing the last key's value onto the sum of the others. */
  lemma SumMapLastKey(m: map<string, Option<int>>, ks: seq<string>)
    requires ks != []
    requires forall i :: 0 <= i < |ks| ==> ks[i] in m
    requires forall i :: 0 <= i < |ks| - 1 ==> ks[i] != ks[|ks| - 1]
    requires SumMap(m - {ks[|ks| - 1]}) == SumOf(Lookup(m - {ks[|ks| - 1]}, ks[..|ks| - 1]))
    ensures SumMap(m) == SumOf(Lookup(m, ks))
  {
    var last := ks[|ks| - 1];
    var init := ks[..|ks| - 1];
    var rest := m - {last};
    assert forall i :: 0 <= i < |init| ==> init[i] == ks[i];
    LookupWithoutKey(m, init, last);
    var vs := Lookup(m, ks);
    assert vs[..|vs| - 1] == Lookup(m, init) && vs[|vs| - 1] == m[last];
    calc {
      SumMap(m);
      { SumMapPick(m, last); }
      AddPreservingNull(m[last], SumMap(rest));
      { AddPreservingNullCommutes(m[last], SumMap(rest)); }
      AddPreservingNull(SumOf(vs[..|vs| - 1]), vs[|vs| - 1]);
      SumOf(vs);
    }
  }

  /** Removing a key that is not looked up does not change the lookup. */
  lemma LookupWithoutKey(m: map<string, Option<int>>, ks: seq<string>, k: string)
    requires forall i :: 0 <= i < |ks| ==> ks[i] in m && ks[i] != k
    ensures Lookup(m - {k}, ks) == Lookup(m, ks)
  {
  }

  /** The map sum is absent exactly when every value is absent. */
  lemma {:induction false} SumMapAbsent(m: map<string, Option<int>>)
    ensures SumMap(m).None? <==> forall k :: k in m ==> m[k].None?
    decreases |m|
  {
    if m != map[] {
      var k :| k in m;
      var rest := m - {k};
      SumMapPick(m, k);
      SumMapAbsent(rest);
      assert forall j :: j in m ==> j == k || j in rest;
    }
  }
}
