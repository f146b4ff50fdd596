/** Count maps from names to occurrence counts: the HashMap<String, Integer>
    that the cluster fills one increment at a time, and the sums and maxima
    taken over its values. */
module CountMaps {

  /** The count stored for `k`, 0 when `k` has no entry. */
  function Get(m: map<string, nat>, k: string): (n: nat) {
    if k in m then m[k] else 0
  }

  /** One increment: a present key goes up by one, an absent key enters with 1. */
  function Bump(m: map<string, nat>, k: string): (r: map<string, nat>)
    ensures r.Keys == m.Keys + {k}
    ensures r[k] == Get(m, k) + 1
    ensures forall j :: j in m && j != k ==> r[j] == m[j]
  {
    if k in m then m[k := m[k] + 1] else m[k := 1]
  }

  /** `m` after one increment per element of `keys`, in order. */
  function Tally(m: map<string, nat>, keys: seq<string>): (r: map<string, nat>)
    decreases |keys|
  {
    if keys == [] then m else Bump(Tally(m, keys[..|keys| - 1]), keys[|keys| - 1])
  }

  lemma TallySnoc(m: map<string, nat>, keys: seq<string>, k: string)
    ensures Tally(m, keys + [k]) == Bump(Tally(m, keys), k)
  {
    assert (keys + [k])[..|keys|] == keys;
  }

  /** How many elements of `keys` equal `k`. */
  function Occurrences(keys: seq<string>, k: string): (n: nat)
    ensures n <= |keys|
    ensures n > 0 <==> k in keys
    decreases |keys|
  {
    if keys == [] then 0
    else
      assert keys == keys[..|keys| - 1] + [keys[|keys| - 1]];
      Occurrences(keys[..|keys| - 1], k) + (if keys[|keys| - 1] == k then 1 else 0)
  }

  /** Every key's count is what it was plus its number of occurrences. */
  lemma {:induction false} TallyAt(m: map<string, nat>, keys: seq<string>, k: string)
    ensures k in Tally(m, keys) <==> k in m || k in keys
    ensures Get(Tally(m, keys), k) == Get(m, k) + Occurrences(keys, k)
    decreases |keys|
  {
    if keys != [] {
      var init := keys[..|keys| - 1];
      assert keys == init + [keys[|keys| - 1]];
      TallyAt(m, init, k);
    }
  }

  /** Running the same tally twice counts every occurrence twice. */
  lemma TallyTwice(m: map<string, nat>, keys: seq<string>, k: string)
    ensures Get(Tally(Tally(m, keys), keys), k) == Get(m, k) + 2 * Occurrences(keys, k)
  {
    TallyAt(m, keys, k);
    TallyAt(Tally(m, keys), keys, k);
  }

  /** The entries of `m` whose keys are in `keys`. */
  function Restrict(m: map<string, nat>, keys: set<string>): (r: map<string, nat>)
    ensures r.Keys == m.Keys * keys
    ensures forall k :: k in r ==> r[k] == m[k]
  {
    map k | k in m && k in keys :: m[k]
  }

  /** A fixed but unspecified key of a non-empty map. */
  ghost function PickKey(m: map<string, nat>): (k: string)
    requires m != map[]
    ensures k in m
  {
    assert m.Keys != {};
    var k :| k in m.Keys; k
  }

  /** The sum of all counts. */
  ghost function SumCounts(m: map<string, nat>): (total: nat)
    decreases |m|
  {
    if m == map[] then 0
    else
      var k := PickKey(m);
      assert (m - {k}).Keys == m.Keys - {k};
      m[k] + SumCounts(m - {k})
  }

  /** The sum does not depend on the key taken out first. */
  lemma {:induction false} SumCountsRemove(m: map<string, nat>, k: string)
    requires k in m
    ensures SumCounts(m) == m[k] + SumCounts(m - {k})
    decreases |m|
  {
    var j := PickKey(m);
    if j != k {
      assert (m - {j}).Keys == m.Keys - {j};
      assert (m - {k}).Keys == m.Keys - {k};
      SumCountsRemove(m - {j}, k);
      SumCountsRemove(m - {k}, j);
      assert (m - {j}) - {k} == (m - {k}) - {j};
    }
  }

  lemma BumpSum(m: map<string, nat>, k: string)
    ensures SumCounts(Bump(m, k)) == SumCounts(m) + 1
  {
    var r := Bump(m, k);
    SumCountsRemove(r, k);
    if k in m {
      SumCountsRemove(m, k);
      assert r - {k} == m - {k};
    } else {
      assert r - {k} == m;
    }
  }

  /** Each element of `keys` adds exactly one to the sum. */
  lemma {:induction false} TallySum(m: map<string, nat>, keys: seq<string>)
    ensures SumCounts(Tally(m, keys)) == SumCounts(m) + |keys|
    decreases |keys|
  {
    if keys != [] {
      TallySum(m, keys[..|keys| - 1]);
      BumpSum(Tally(m, keys[..|keys| - 1]), keys[|keys| - 1]);
    }
  }

  lemma ValueAtMostSum(m: map<string, nat>, k: string)
    requires k in m
    ensures m[k] <= SumCounts(m)
  {
    SumCountsRemove(m, k);
  }

  /** `h` is the largest count of `m`, 0 for an empty map. */
  ghost predicate IsMaxValue(m: map<string, nat>, h: nat) {
    && (forall k :: k in m ==> m[k] <= h)
    && (m == map[] ==> h == 0)
    && (m != map[] ==> exists k :: k in m && m[k] == h)
  }

  /** The largest count, 0 for an empty map. */
  ghost function MaxValue(m: map<string, nat>): (h: nat)
    ensures IsMaxValue(m, h)
    decreases |m|
  {
    if m == map[] then 0
    else
      var k := PickKey(m);
      assert (m - {k}).Keys == m.Keys - {k};
      var rest := MaxValue(m - {k});
      assert forall j :: j in m && j != k ==> j in m - {k} && (m - {k})[j] == m[j];
      if m[k] > rest then m[k] else rest
  }

  /** Taking one more key into account keeps the running maximum. */
  lemma MaxValueStep(m: map<string, nat>, visited: set<string>, k: string, h: nat)
    requires k in m && k !in visited
    requires IsMaxValue(Restrict(m, visited), h)
    ensures IsMaxValue(Restrict(m, visited + {k}), if m[k] > h then m[k] else h)
  {
    var before := Restrict(m, visited);
    var after := Restrict(m, visited + {k});
    assert after.Keys == before.Keys + {k};
    assert forall j :: j in before ==> j in after && after[j] == before[j];
    if before != map[] {
      var w :| w in before && before[w] == h;
      assert w in after;
    }
  }

  /** Summing the counts of a key set one key at a time. */
  lemma SumRestrictStep(m: map<string, nat>, keys: set<string>, k: string)
    requires k in keys && keys <= m.Keys
    ensures SumCounts(Restrict(m, keys)) == m[k] + SumCounts(Restrict(m, keys - {k}))
  {
    SumCountsRemove(Restrict(m, keys), k);
    assert Restrict(m, keys) - {k} == Restrict(m, keys - {k});
  }

  /** The largest count is determined by the map. */
  lemma MaxValueUnique(m: map<string, nat>, h: nat)
    requires IsMaxValue(m, h)
    ensures h == MaxValue(m)
  {
    if m != map[] {
      var k :| k in m && m[k] == h;
      var j :| j in m && m[j] == MaxValue(m);
      assert m[j] <= h && m[k] <= MaxValue(m);
    }
  }

  lemma MaxValueAtMostSum(m: map<string, nat>)
    ensures MaxValue(m) <= SumCounts(m)
  {
    if m != map[] {
      var j :| j in m && m[j] == MaxValue(m);
      ValueAtMostSum(m, j);
    }
  }
}
