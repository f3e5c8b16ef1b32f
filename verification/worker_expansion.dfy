/** Expanding a parallel run into its workers: matrix combinations, and shards within each. */
module WorkerExpansion {
  import opened Bytes
  import opened Order

  type Lists = map<string, seq<string>>

  type Choice = map<string, string>

  /** At most one of count and maxCount is given. */
  datatype Parallel = Parallel(matrix: Lists, count: Option<nat>, maxCount: Option<nat>, shards: Lists)

  datatype Worker = Worker(index: nat, count: nat, matrix: Choice, shard: Lists)

  /** The keys of the matrix in order. */
  ghost predicate Sorted(keys: seq<string>, matrix: Lists) {
    && (forall i, j :: 0 <= i < j < |keys| ==> Less(keys[i], keys[j]))
    && (forall k :: k in keys <==> k in matrix)
  }

  // ----- Matrix combinations ----------------------------------------------------------

  /** One combination extended by each of the values. */
  function ExtendOne(c: Choice, key: string, values: seq<string>): (r: seq<Choice>)
    ensures |r| == |values|
  {
    seq(|values|, j requires 0 <= j < |values| => c[key := values[j]])
  }

  function Extend(combos: seq<Choice>, key: string, values: seq<string>): seq<Choice> {
    if combos == [] then [] else Extend(combos[..|combos| - 1], key, values) + ExtendOne(combos[|combos| - 1], key, values)
  }

  /** The combinations of the first k keys. */
  function Combos(keys: seq<string>, matrix: Lists, k: nat): seq<Choice>
    requires k <= |keys| && forall i :: 0 <= i < |keys| ==> keys[i] in matrix
  {
    if k == 0 then [map[]] else Extend(Combos(keys, matrix, k - 1), keys[k - 1], matrix[keys[k - 1]])
  }

  lemma {:induction false} ExtendSize(combos: seq<Choice>, key: string, values: seq<string>)
    ensures |Extend(combos, key, values)| == |combos| * |values|
  {
    if combos != [] {
      ExtendSize(combos[..|combos| - 1], key, values);
      assert |combos| * |values| == (|combos| - 1) * |values| + |values|;
    }
  }

  lemma Within(i: nat, j: nat, m: nat, n: nat)
    requires i < m && j < n
    ensures 0 <= i * n + j < m * n
  {
    assert (i + 1) * n <= m * n;
  }

  lemma {:induction false} ExtendAt(combos: seq<Choice>, key: string, values: seq<string>, i: nat, j: nat)
    requires i < |combos| && j < |values|
    ensures 0 <= i * |values| + j < |Extend(combos, key, values)|
    ensures Extend(combos, key, values)[i * |values| + j] == combos[i][key := values[j]]
  {
    ExtendSize(combos, key, values);
    Within(i, j, |combos|, |values|);
    var n := |combos| - 1;
    ExtendSize(combos[..n], key, values);
    if i < n {
      Within(i, j, n, |values|);
      ExtendAt(combos[..n], key, values, i, j);
    }
  }

  /** For each of the first k keys, which of its values is chosen. */
  ghost predicate IsPick(keys: seq<string>, matrix: Lists, pick: seq<nat>) {
    && |pick| <= |keys|
    && (forall i :: 0 <= i < |keys| ==> keys[i] in matrix)
    && forall i :: 0 <= i < |pick| ==> pick[i] < |matrix[keys[i]]|
  }

  /** The mixed-radix number of a pick: the last key's digit counts for least. */
  function Rank(keys: seq<string>, matrix: Lists, pick: seq<nat>): nat
    requires IsPick(keys, matrix, pick)
  {
    if pick == [] then 0
    else
      var k := |pick| - 1;
      Rank(keys, matrix, pick[..k]) * |matrix[keys[k]]| + pick[k]
  }

  /** The values of a pick. */
  function Chosen(keys: seq<string>, matrix: Lists, pick: seq<nat>): Choice
    requires IsPick(keys, matrix, pick)
  {
    if pick == [] then map[]
    else
      var k := |pick| - 1;
      Chosen(keys, matrix, pick[..k])[keys[k] := matrix[keys[k]][pick[k]]]
  }

  /** A combination stands at the number of its pick. */
  lemma {:induction false} CombosAtRank(keys: seq<string>, matrix: Lists, pick: seq<nat>)
    requires IsPick(keys, matrix, pick)
    ensures Rank(keys, matrix, pick) < |Combos(keys, matrix, |pick|)|
    ensures Combos(keys, matrix, |pick|)[Rank(keys, matrix, pick)] == Chosen(keys, matrix, pick)
  {
    if pick != [] {
      var k := |pick| - 1;
      CombosAtRank(keys, matrix, pick[..k]);
      ExtendAt(Combos(keys, matrix, k), keys[k], matrix[keys[k]], Rank(keys, matrix, pick[..k]), pick[k]);
    }
  }

  /** Every number of a combination is that of a pick. */
  lemma {:induction false} PickOfRank(keys: seq<string>, matrix: Lists, k: nat, i: nat) returns (pick: seq<nat>)
    requires k <= |keys| && forall i :: 0 <= i < |keys| ==> keys[i] in matrix
    requires i < |Combos(keys, matrix, k)|
    ensures |pick| == k && IsPick(keys, matrix, pick) && Rank(keys, matrix, pick) == i
  {
    if k == 0 {
      pick := [];
    } else {
      var n := |matrix[keys[k - 1]]|;
      var fewer := Combos(keys, matrix, k - 1);
      ExtendSize(fewer, keys[k - 1], matrix[keys[k - 1]]);
      var q := Digit(i, |fewer|, n);
      var init := PickOfRank(keys, matrix, k - 1, q);
      pick := init + [i - q * n];
      assert pick[..k - 1] == init;
    }
  }

  /** The quotient of a number below m * n. */
  lemma {:induction false} Digit(i: nat, m: nat, n: nat) returns (q: nat)
    requires i < m * n
    ensures q < m && q * n <= i < q * n + n
  {
    q := m - 1;
    assert m * n == (m - 1) * n + n;
    if i < q * n {
      q := Digit(i, m - 1, n);
    }
  }

  /** Different picks have different numbers. */
  lemma {:induction false} RankInjective(keys: seq<string>, matrix: Lists, p: seq<nat>, r: seq<nat>)
    requires IsPick(keys, matrix, p) && IsPick(keys, matrix, r) && |p| == |r|
    requires Rank(keys, matrix, p) == Rank(keys, matrix, r)
    ensures p == r
  {
    if p != [] {
      var k := |p| - 1;
      DigitsUnique(Rank(keys, matrix, p[..k]), p[k], Rank(keys, matrix, r[..k]), r[k], |matrix[keys[k]]|);
      RankInjective(keys, matrix, p[..k], r[..k]);
      assert p == p[..k] + [p[k]] && r == r[..k] + [r[k]];
    }
  }

  lemma DigitsUnique(a: nat, b: nat, c: nat, d: nat, n: nat)
    requires b < n && d < n && a * n + b == c * n + d
    ensures a == c && b == d
  {
    Distributes(a, 1, n);
    Distributes(c, 1, n);
    ByProduct(a, c + 1, n);
    ByProduct(c, a + 1, n);
  }

  lemma Distributes(a: nat, b: nat, n: nat)
    ensures (a + b) * n == a * n + b * n
  {}

  lemma Multiplies(a: nat, b: nat, n: nat)
    requires a <= b
    ensures a * n <= b * n
  {}

  lemma ByProduct(a: nat, b: nat, n: nat)
    requires a * n < b * n
    ensures a < b
  {
    if b <= a {
      Multiplies(b, a, n);
    }
  }

  ghost predicate DistinctValues(values: seq<string>) {
    forall i, j :: 0 <= i < j < |values| ==> values[i] != values[j]
  }

  lemma {:induction false} ChosenKeys(keys: seq<string>, matrix: Lists, pick: seq<nat>, s: string)
    requires IsPick(keys, matrix, pick) && s in Chosen(keys, matrix, pick)
    ensures exists i :: 0 <= i < |pick| && keys[i] == s
  {
    var k := |pick| - 1;
    if s != keys[k] {
      ChosenKeys(keys, matrix, pick[..k], s);
    }
  }

  /** A choice has a value for each key, taken from its list. */
  lemma {:induction false} ChosenAt(keys: seq<string>, matrix: Lists, pick: seq<nat>, i: nat)
    requires IsPick(keys, matrix, pick) && Sorted(keys, matrix) && i < |pick|
    ensures keys[i] in Chosen(keys, matrix, pick) && Chosen(keys, matrix, pick)[keys[i]] == matrix[keys[i]][pick[i]]
  {
    var k := |pick| - 1;
    if i < k {
      ChosenAt(keys, matrix, pick[..k], i);
    }
  }

  /** With distinct values, different picks are different choices. */
  lemma ChosenInjective(keys: seq<string>, matrix: Lists, p: seq<nat>, r: seq<nat>)
    requires Sorted(keys, matrix) && IsPick(keys, matrix, p) && IsPick(keys, matrix, r) && |p| == |r|
    requires forall k {:trigger matrix[k]} :: k in matrix ==> DistinctValues(matrix[k])
    requires Chosen(keys, matrix, p) == Chosen(keys, matrix, r)
    ensures p == r
  {
    forall i | 0 <= i < |p| ensures p[i] == r[i] {
      ChosenAt(keys, matrix, p, i);
      ChosenAt(keys, matrix, r, i);
      assert DistinctValues(matrix[keys[i]]);
      assert matrix[keys[i]][p[i]] == Chosen(keys, matrix, p)[keys[i]] == matrix[keys[i]][r[i]];
    }
  }

  /** A value for every key, each from its list. */
  ghost predicate IsChoice(matrix: Lists, c: Choice) {
    c.Keys == matrix.Keys && forall k {:trigger matrix[k]} :: k in matrix ==> c[k] in matrix[k]
  }

  lemma {:induction false} PickOf(keys: seq<string>, matrix: Lists, c: Choice, n: nat) returns (pick: seq<nat>)
    requires Sorted(keys, matrix) && IsChoice(matrix, c) && n <= |keys|
    ensures IsPick(keys, matrix, pick) && |pick| == n
    ensures forall i :: 0 <= i < n ==> matrix[keys[i]][pick[i]] == c[keys[i]]
  {
    if n == 0 {
      pick := [];
    } else {
      var init := PickOf(keys, matrix, c, n - 1);
      assert keys[n - 1] in keys;
      assert c[keys[n - 1]] in matrix[keys[n - 1]];
      var j :| 0 <= j < |matrix[keys[n - 1]]| && matrix[keys[n - 1]][j] == c[keys[n - 1]];
      pick := init + [j];
    }
  }

  /** Every choice of values is a combination. */
  lemma EveryChoiceIsThere(keys: seq<string>, matrix: Lists, c: Choice)
    requires Sorted(keys, matrix) && IsChoice(matrix, c)
    ensures forall i :: 0 <= i < |keys| ==> keys[i] in matrix
    ensures c in Combos(keys, matrix, |keys|)
  {
    assert forall i :: 0 <= i < |keys| ==> keys[i] in keys;
    var pick := PickOf(keys, matrix, c, |keys|);
    CombosAtRank(keys, matrix, pick);
    ChosenIs(keys, matrix, pick, c);
  }

  lemma ChosenIs(keys: seq<string>, matrix: Lists, pick: seq<nat>, c: Choice)
    requires Sorted(keys, matrix) && c.Keys == matrix.Keys && IsPick(keys, matrix, pick) && |pick| == |keys|
    requires forall i :: 0 <= i < |keys| ==> matrix[keys[i]][pick[i]] == c[keys[i]]
    ensures Chosen(keys, matrix, pick) == c
  {
    var found := Chosen(keys, matrix, pick);
    forall k | k in found ensures k in c {
      ChosenKeys(keys, matrix, pick, k);
      assert k in keys;
    }
    forall k | k in c ensures k in found && found[k] == c[k] {
      assert k in keys;
      var i :| 0 <= i < |keys| && keys[i] == k;
      ChosenAt(keys, matrix, pick, i);
    }
  }

  /** No two combinations are the same when no list repeats a value. */
  lemma CombinationsDiffer(keys: seq<string>, matrix: Lists, i: nat, j: nat)
    requires Sorted(keys, matrix) && forall i :: 0 <= i < |keys| ==> keys[i] in matrix
    requires forall k {:trigger matrix[k]} :: k in matrix ==> DistinctValues(matrix[k])
    requires i < |Combos(keys, matrix, |keys|)| && j < |Combos(keys, matrix, |keys|)|
    requires Combos(keys, matrix, |keys|)[i] == Combos(keys, matrix, |keys|)[j]
    ensures i == j
  {
    var p := PickOfRank(keys, matrix, |keys|, i);
    var r := PickOfRank(keys, matrix, |keys|, j);
    CombosAtRank(keys, matrix, p);
    CombosAtRank(keys, matrix, r);
    ChosenInjective(keys, matrix, p, r);
  }

  // ----- Shards -----------------------------------------------------------------------

  /** Where part j of n values split into per parts begins. */
  function Cut(j: nat, n: nat, per: nat): (r: nat)
    requires per > 0
  {
    j * n / per
  }

  lemma CutUnique(j: nat, n: nat, per: nat, r: nat)
    requires per > 0 && r * per <= j * n < (r + 1) * per
    ensures Cut(j, n, per) == r
  {
    CutBounds(j, n, per);
    ByProduct(Cut(j, n, per), r + 1, per);
    ByProduct(r, Cut(j, n, per) + 1, per);
  }

  /** The parts begin at the first value and end after the last. */
  lemma CutEnds(n: nat, per: nat)
    requires per > 0
    ensures Cut(0, n, per) == 0 && Cut(per, n, per) == n
  {
    CutUnique(0, n, per, 0);
    assert per * n == n * per && (n + 1) * per == n * per + per;
    CutUnique(per, n, per, n);
  }

  /** Each part has as many values as the quotient, or one more. */
  lemma CutSizes(j: nat, n: nat, per: nat)
    requires per > 0
    ensures n / per <= Cut(j + 1, n, per) - Cut(j, n, per) <= n / per + 1
  {
    var a, b, q := Cut(j, n, per), Cut(j + 1, n, per), n / per;
    Distributes(j, 1, n);
    CutBounds(j, n, per);
    CutBounds(j + 1, n, per);
    QuotientBounds(n, per);
    Distributes(a, q, per);
    Distributes(a + 1, q + 1, per);
    ByProduct(a + q, b + 1, per);
    ByProduct(b, a + q + 2, per);
  }

  lemma QuotientBounds(n: nat, per: nat)
    requires per > 0
    ensures n / per * per <= n < (n / per + 1) * per
  {
    Distributes(n / per, 1, per);
  }

  lemma CutsAscend(j: nat, k: nat, n: nat, per: nat)
    requires per > 0 && j <= k
    ensures Cut(j, n, per) <= Cut(k, n, per)
  {
    Multiplies(j, k, n);
    CutBounds(j, n, per);
    CutBounds(k, n, per);
    ByProduct(Cut(j, n, per), Cut(k, n, per) + 1, per);
  }

  lemma CutsFit(j: nat, n: nat, per: nat)
    requires per > 0 && j < per
    ensures Cut(j, n, per) <= Cut(j + 1, n, per) <= n
  {
    CutsAscend(j, j + 1, n, per);
    CutsAscend(j + 1, per, n, per);
    CutEnds(n, per);
  }

  function Part(values: seq<string>, j: nat, per: nat): seq<string>
    requires j < per
  {
    CutsFit(j, |values|, per);
    values[Cut(j, |values|, per)..Cut(j + 1, |values|, per)]
  }

  /** The first k parts, one after the other. */
  function Parts(values: seq<string>, k: nat, per: nat): seq<string>
    requires k <= per
  {
    if k == 0 then [] else Parts(values, k - 1, per) + Part(values, k - 1, per)
  }

  lemma {:induction false} PartsAreConsecutive(values: seq<string>, k: nat, per: nat)
    requires per > 0 && k <= per
    ensures Cut(k, |values|, per) <= |values|
    ensures Parts(values, k, per) == values[..Cut(k, |values|, per)]
  {
    CutEnds(|values|, per);
    CutsAscend(k, per, |values|, per);
    if k > 0 {
      PartsAreConsecutive(values, k - 1, per);
      CutsAscend(k - 1, k, |values|, per);
    }
  }

  /** The parts of a list put together are the list, and no two differ in size by more than one. */
  lemma ShardsSplitTheList(values: seq<string>, per: nat)
    requires per > 0
    ensures Parts(values, per, per) == values
    ensures forall j, k :: 0 <= j < per && 0 <= k < per ==> |Part(values, j, per)| <= |Part(values, k, per)| + 1
    ensures |values| <= per ==> forall j :: 0 <= j < per ==> |Part(values, j, per)| <= 1
    ensures |values| >= per ==> forall j :: 0 <= j < per ==> |Part(values, j, per)| >= 1
  {
    PartsAreConsecutive(values, per, per);
    CutEnds(|values|, per);
    forall j: nat | j < per ensures |values| / per <= |Part(values, j, per)| <= |values| / per + 1 {
      CutSizes(j, |values|, per);
      CutsFit(j, |values|, per);
    }
    forall j: nat | |values| <= per && j < per ensures |Part(values, j, per)| <= 1 {
      CutsFit(j, |values|, per);
      SmallSteps(j, |values|, per);
    }
    if |values| >= per {
      assert |values| / per >= 1;
    }
  }

  lemma SmallSteps(j: nat, n: nat, per: nat)
    requires per > 0 && n <= per
    ensures Cut(j + 1, n, per) <= Cut(j, n, per) + 1
  {
    var a, b := Cut(j, n, per), Cut(j + 1, n, per);
    Distributes(j, 1, n);
    CutBounds(j, n, per);
    CutBounds(j + 1, n, per);
    Distributes(a + 1, 1, per);
    ByProduct(b, a + 2, per);
  }

  lemma CutBounds(j: nat, n: nat, per: nat)
    requires per > 0
    ensures Cut(j, n, per) * per <= j * n < (Cut(j, n, per) + 1) * per
  {
    QuotientBounds(j * n, per);
  }

  // ----- The workers ------------------------------------------------------------------

  ghost predicate IsLongest(shards: Lists, n: nat) {
    && (forall k {:trigger shards[k]} :: k in shards ==> |shards[k]| <= n)
    && (n > 0 ==> exists k :: k in shards && |shards[k]| == n)
  }

  /** How many workers each combination gets. */
  ghost predicate IsPer(p: Parallel, per: nat) {
    if p.count.Some? then per == p.count.value
    else if p.shards == map[] then per == 1
    else exists n: nat :: IsLongest(p.shards, n)
                     && per == var capped := if p.maxCount.Some? && p.maxCount.value < n then p.maxCount.value else n;
                               if capped < 1 then 1 else capped
  }

  /** The rules leave no choice. */
  lemma PerIsUnique(p: Parallel, a: nat, b: nat)
    requires IsPer(p, a) && IsPer(p, b)
    ensures a == b
  {
    if p.count.None? && p.shards != map[] {
      forall m: nat, n: nat | IsLongest(p.shards, m) && IsLongest(p.shards, n) ensures m == n {
        if m > 0 {
          var k :| k in p.shards && |p.shards[k]| == m;
        }
        if n > 0 {
          var k :| k in p.shards && |p.shards[k]| == n;
        }
      }
    }
  }

  function ShardsOf(shards: Lists, j: nat, per: nat): Lists
    requires j < per
  {
    map k | k in shards :: Part(shards[k], j, per)
  }

  /** The number of worker j of combination c. */
  function Number(c: nat, j: nat, per: nat): nat {
    c * per + j
  }

  /** The workers of the first n combinations, those of one after those of another. */
  ghost predicate WorkersUpTo(p: Parallel, combos: seq<Choice>, per: nat, total: nat, out: seq<Worker>, n: nat)
    requires n <= |combos|
  {
    && |out| == Number(n, 0, per)
    && forall c: nat, j: nat {:trigger Number(c, j, per)} :: c < n && j < per ==>
         Number(c, j, per) < |out|
         && out[Number(c, j, per)] == Worker(Number(c, j, per), total, combos[c], ShardsOf(p.shards, j, per))
  }

  ghost predicate AreWorkers(p: Parallel, keys: seq<string>, per: nat, out: seq<Worker>)
    requires Sorted(keys, p.matrix)
  {
    var combos := Combos(keys, p.matrix, |keys|);
    WorkersUpTo(p, combos, per, |out|, out, |combos|)
  }

  method Combinations(keys: seq<string>, matrix: Lists) returns (combos: seq<Choice>)
    requires Sorted(keys, matrix)
    ensures combos == Combos(keys, matrix, |keys|)
  {
    assert forall i :: 0 <= i < |keys| ==> keys[i] in keys;
    combos := [map[]];
    for i := 0 to |keys|
      invariant combos == Combos(keys, matrix, i)
    {
      combos := ExtendAll(combos, keys[i], matrix[keys[i]]);
    }
  }

  /** The workers of one combination, numbered on. */
  method AddWorkers(p: Parallel, combo: Choice, n: nat, total: nat, before: seq<Worker>) returns (out: seq<Worker>)
    ensures |out| == |before| + n && before <= out
    ensures forall k: nat {:trigger ShardsOf(p.shards, k, n)} :: k < n ==>
              out[|before| + k] == Worker(|before| + k, total, combo, ShardsOf(p.shards, k, n))
  {
    out := before;
    for j := 0 to n
      invariant |out| == |before| + j && before <= out
      invariant forall k: nat {:trigger ShardsOf(p.shards, k, n)} :: k < j ==>
        out[|before| + k] == Worker(|before| + k, total, combo, ShardsOf(p.shards, k, n))
    {
      var shard := Shard(p.shards, j, n);
      out := out + [Worker(|out|, total, combo, shard)];
    }
  }

  method ParallelWorkers(p: Parallel, keys: seq<string>) returns (out: seq<Worker>)
    requires Sorted(keys, p.matrix)
    ensures exists per :: IsPer(p, per) && AreWorkers(p, keys, per, out)
  {
    var combos := Combinations(keys, p.matrix);
    var n := PerCombination(p);
    var total := |combos| * n;
    out := NumberedWorkers(p, combos, n, total);
    assert AreWorkers(p, keys, n, out);
  }

  method NumberedWorkers(p: Parallel, combos: seq<Choice>, n: nat, total: nat) returns (out: seq<Worker>)
    ensures WorkersUpTo(p, combos, n, total, out, |combos|) && |out| == |combos| * n
  {
    out := [];
    for c := 0 to |combos|
      invariant WorkersUpTo(p, combos, n, total, out, c)
    {
      var more := AddWorkers(p, combos[c], n, total, out);
      OneMore(p, combos, n, total, out, more, c);
      out := more;
    }
  }

  lemma OneMore(p: Parallel, combos: seq<Choice>, per: nat, total: nat, before: seq<Worker>, out: seq<Worker>, n: nat)
    requires n < |combos| && WorkersUpTo(p, combos, per, total, before, n)
    requires |out| == |before| + per && before <= out
    requires forall k: nat {:trigger ShardsOf(p.shards, k, per)} :: k < per ==>
               out[|before| + k] == Worker(|before| + k, total, combos[n], ShardsOf(p.shards, k, per))
    ensures WorkersUpTo(p, combos, per, total, out, n + 1)
  {
    Distributes(n, 1, per);
    forall c: nat, j: nat | c < n + 1 && j < per
      ensures Number(c, j, per) < |out|
              && out[Number(c, j, per)] == Worker(Number(c, j, per), total, combos[c], ShardsOf(p.shards, j, per))
    {
      if c == n {
        assert Number(c, j, per) == |before| + j;
      } else {
        assert Number(c, j, per) < |before|;
      }
    }
  }

  method ExtendAll(combos: seq<Choice>, key: string, values: seq<string>) returns (next: seq<Choice>)
    ensures next == Extend(combos, key, values)
  {
    next := [];
    for i := 0 to |combos|
      invariant next == Extend(combos[..i], key, values)
    {
      ghost var before := next;
      for j := 0 to |values|
        invariant next == before + ExtendOne(combos[i], key, values)[..j]
      {
        next := next + [combos[i][key := values[j]]];
      }
      assert ExtendOne(combos[i], key, values)[..|values|] == ExtendOne(combos[i], key, values);
      assert combos[..i + 1][..i] == combos[..i];
    }
    assert combos[..|combos|] == combos;
  }

  method PerCombination(p: Parallel) returns (per: nat)
    ensures IsPer(p, per)
  {
    if p.count.Some? {
      return p.count.value;
    }
    if p.shards == map[] {
      return 1;
    }
    var longest := 0;
    var rest := p.shards.Keys;
    while rest != {}
      invariant rest <= p.shards.Keys
      invariant forall k {:trigger p.shards[k]} :: k in p.shards && k !in rest ==> |p.shards[k]| <= longest
      invariant longest > 0 ==> exists k :: k in p.shards && |p.shards[k]| == longest
      decreases rest
    {
      var k :| k in rest;
      rest := rest - {k};
      if |p.shards[k]| > longest {
        longest := |p.shards[k]|;
      }
    }
    assert IsLongest(p.shards, longest);
    per := longest;
    if p.maxCount.Some? && p.maxCount.value < per {
      per := p.maxCount.value;
    }
    if per < 1 {
      per := 1;
    }
  }

  method Shard(shards: Lists, j: nat, per: nat) returns (shard: Lists)
    requires j < per
    ensures shard == ShardsOf(shards, j, per)
  {
    shard := map[];
    var rest := shards.Keys;
    while rest != {}
      invariant rest <= shards.Keys
      invariant forall k {:trigger k in shard} :: (k in shard <==> k in shards && k !in rest) && (k in shard ==> shard[k] == Part(shards[k], j, per))
      decreases rest
    {
      var k :| k in rest;
      rest := rest - {k};
      CutsFit(j, |shards[k]|, per);
      var lo, hi := j * |shards[k]| / per, (j + 1) * |shards[k]| / per;
      shard := shard[k := shards[k][lo..hi]];
    }
  }

  /** Every choice of matrix values meets every shard number in exactly one worker. */
  lemma EveryChoiceAndShardOnce(p: Parallel, keys: seq<string>, per: nat, out: seq<Worker>, choice: Choice, j: nat)
    requires Sorted(keys, p.matrix) && AreWorkers(p, keys, per, out) && j < per
    requires IsChoice(p.matrix, choice)
    requires forall k {:trigger p.matrix[k]} :: k in p.matrix ==> DistinctValues(p.matrix[k])
    ensures exists c: nat ::
              Number(c, j, per) < |out| && out[Number(c, j, per)].matrix == choice
              && out[Number(c, j, per)].shard == ShardsOf(p.shards, j, per)
              && forall d: nat {:trigger Number(d, j, per)} :: Number(d, j, per) < |out| && out[Number(d, j, per)].matrix == choice ==> d == c
  {
    EveryChoiceIsThere(keys, p.matrix, choice);
    var combos := Combos(keys, p.matrix, |keys|);
    var c: nat :| c < |combos| && combos[c] == choice;
    assert Number(c, j, per) < |out|;
    forall d: nat | Number(d, j, per) < |out| && out[Number(d, j, per)].matrix == choice ensures d == c {
      CombinationOf(d, j, per, |combos|);
      CombinationsDiffer(keys, p.matrix, d, c);
    }
  }

  lemma CombinationOf(c: nat, j: nat, per: nat, n: nat)
    requires Number(c, j, per) < Number(n, 0, per)
    ensures c < n
  {
    ByProduct(c, n, per);
  }

  /** A matrix key without values leaves no worker at all. */
  lemma EmptyListMeansNoWorkers(p: Parallel, keys: seq<string>, per: nat, out: seq<Worker>, key: string)
    requires Sorted(keys, p.matrix) && AreWorkers(p, keys, per, out)
    requires key in p.matrix && p.matrix[key] == []
    ensures out == []
  {
    assert forall i :: 0 <= i < |keys| ==> keys[i] in keys;
    var i :| 0 <= i < |keys| && keys[i] == key;
    EmptyStaysEmpty(keys, p.matrix, i, |keys|);
  }

  lemma {:induction false} EmptyStaysEmpty(keys: seq<string>, matrix: Lists, i: nat, k: nat)
    requires (forall i :: 0 <= i < |keys| ==> keys[i] in matrix) && i < k <= |keys| && matrix[keys[i]] == []
    ensures Combos(keys, matrix, k) == []
  {
    ExtendSize(Combos(keys, matrix, k - 1), keys[k - 1], matrix[keys[k - 1]]);
    if i < k - 1 {
      EmptyStaysEmpty(keys, matrix, i, k - 1);
    }
  }
}
