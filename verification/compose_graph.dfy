/** Checking the graph of Tests that execute one another, for cycles and for depth. */
module ComposeGraph {
  const MAX_DEPTH: nat := 10

  /** The steps of a Test: the names each executes, or None for a step that executes nothing. */
  datatype Step = Step(execute: seq<string>) | NoExecute

  type Spec = seq<Step>

  type Tests = map<string, Spec>

  datatype Verdict = Fine | Cycle(path: seq<string>) | TooDeep(name: string, depth: nat)

  /** The names a Test executes, in order. */
  function Targets(spec: Spec): seq<string> {
    if spec == [] then []
    else (if spec[0].NoExecute? then [] else spec[0].execute) + Targets(spec[1..])
  }

  /** What is found below a Test reached at a depth along a path. */
  function Explore(tests: Tests, name: string, spec: Spec, depth: nat, path: seq<string>): Verdict
    requires depth <= MAX_DEPTH + 1
    decreases MAX_DEPTH + 1 - depth, 1, 0
  {
    if depth > MAX_DEPTH then TooDeep(name, depth)
    else if name in path then Cycle(path + [name])
    else if spec == [] then Fine
    else ExploreAll(tests, Targets(spec), depth, path + [name])
  }

  /** What is found first among the names executed at a depth; Tests that do not exist are passed over. */
  function ExploreAll(tests: Tests, names: seq<string>, depth: nat, path: seq<string>): Verdict
    requires depth <= MAX_DEPTH
    decreases MAX_DEPTH + 1 - depth, 0, |names|
  {
    if names == [] then Fine
    else if names[0] !in tests then ExploreAll(tests, names[1..], depth, path)
    else
      var v := Explore(tests, names[0], tests[names[0]], depth + 1, path);
      if v == Fine then ExploreAll(tests, names[1..], depth, path) else v
  }

  predicate NoRepeats(path: seq<string>) {
    forall i, j :: 0 <= i < j < |path| ==> path[i] != path[j]
  }

  /** The walk over the graph, with the names it is in the middle of. */
  class Resolver {
    const tests: Tests
    var visiting: set<string>
    var path: seq<string>

    constructor (tests: Tests)
      ensures this.tests == tests && path == [] && Valid()
    {
      this.tests := tests;
      visiting, path := {}, [];
    }

    /** The names visited are those of the path, each once. */
    ghost predicate Valid()
      reads this
    {
      visiting == (set n | n in path) && NoRepeats(path)
    }

    method Walk(name: string, spec: Spec, depth: nat) returns (v: Verdict)
      requires Valid() && depth <= MAX_DEPTH + 1
      modifies this
      ensures Valid() && path == old(path) && visiting == old(visiting)
      ensures v == Explore(tests, name, spec, depth, path)
      decreases MAX_DEPTH + 1 - depth
    {
      if depth > MAX_DEPTH {
        return TooDeep(name, depth);
      }
      if name in visiting {
        return Cycle(path + [name]);
      }
      if |spec| == 0 {
        return Fine;
      }
      ghost var before, seen := path, visiting;
      visiting := visiting + {name};
      path := path + [name];
      v := Fine;
      var i := 0;
      while i < |spec| && v == Fine
        invariant 0 <= i <= |spec| && Valid() && path == before + [name] && visiting == seen + {name}
        invariant v == Fine ==> ExploreAll(tests, Targets(spec), depth, path) == ExploreAll(tests, Targets(spec[i..]), depth, path)
        invariant v != Fine ==> v == ExploreAll(tests, Targets(spec), depth, path)
        decreases |spec| - i, v == Fine
      {
        var names := if spec[i].NoExecute? then [] else spec[i].execute;
        ghost var later := Targets(spec[i + 1..]);
        assert spec[i..][1..] == spec[i + 1..];
        var k := 0;
        while k < |names| && v == Fine
          invariant 0 <= k <= |names| && Valid() && path == before + [name] && visiting == seen + {name}
          invariant v == Fine ==>
            ExploreAll(tests, Targets(spec), depth, path) == ExploreAll(tests, names[k..] + later, depth, path)
          invariant v != Fine ==> v == ExploreAll(tests, Targets(spec), depth, path)
          decreases |names| - k, v == Fine
        {
          HeadAndRest(names, k, later);
          if names[k] in tests {
            v := Walk(names[k], tests[names[k]], depth + 1);
          }
          k := k + 1;
        }
        assert names[|names|..] + later == later;
        i := i + 1;
      }
      assert Targets(spec[|spec|..]) == [];
      visiting := visiting - {name};
      path := path[..|path| - 1];
      assert path == before;
    }
  }

  lemma HeadAndRest(names: seq<string>, k: nat, later: seq<string>)
    requires k < |names|
    ensures names[k..] + later != [] && (names[k..] + later)[0] == names[k]
    ensures (names[k..] + later)[1..] == names[k + 1..] + later
  {}

  method ResolveGraph(root: string, spec: Spec, tests: Tests) returns (v: Verdict)
    ensures v == Explore(tests, root, spec, 0, [])
  {
    var r := new Resolver(tests);
    v := r.Walk(root, spec, 0);
  }

  // ----- Walks ------------------------------------------------------------------------

  /** The steps of the Test that a walk from the root is at after i moves. */
  function SpecAt(tests: Tests, spec: Spec, walk: seq<string>, i: nat): Spec
    requires i < |walk| && (i > 0 ==> walk[i] in tests)
  {
    if i == 0 then spec else tests[walk[i]]
  }

  /** One of the steps executes the name. */
  predicate Executes(spec: Spec, name: string) {
    exists j :: 0 <= j < |spec| && spec[j].Step? && name in spec[j].execute
  }

  lemma {:induction false} TargetsAre(spec: Spec)
    ensures forall n {:trigger n in Targets(spec)} {:trigger Executes(spec, n)} :: n in Targets(spec) <==> Executes(spec, n)
  {
    if spec != [] {
      TargetsAre(spec[1..]);
      forall n ensures n in Targets(spec) <==> Executes(spec, n) {
        if Executes(spec[1..], n) {
          var j :| 0 <= j < |spec[1..]| && spec[1..][j].Step? && n in spec[1..][j].execute;
          assert spec[j + 1] == spec[1..][j];
        }
        if Executes(spec, n) {
          var j :| 0 <= j < |spec| && spec[j].Step? && n in spec[j].execute;
          assert j > 0 ==> spec[1..][j - 1] == spec[j];
        }
      }
    }
  }

  ghost predicate Move(tests: Tests, spec: Spec, walk: seq<string>, i: nat)
    requires i + 1 < |walk|
  {
    && walk[i + 1] in tests
    && (i > 0 ==> walk[i] in tests)
    && Executes(SpecAt(tests, spec, walk, i), walk[i + 1])
  }

  /** A walk from the root through Tests that exist, each executed by the one before. */
  ghost predicate IsWalk(tests: Tests, root: string, spec: Spec, walk: seq<string>) {
    && walk != [] && walk[0] == root
    && forall i: nat {:trigger Move(tests, spec, walk, i)} :: i + 1 < |walk| ==> Move(tests, spec, walk, i)
  }

  lemma WalkTail(tests: Tests, root: string, spec: Spec, walk: seq<string>)
    requires IsWalk(tests, root, spec, walk) && |walk| > 1
    ensures walk[1] in tests && Executes(spec, walk[1])
    ensures IsWalk(tests, walk[1], tests[walk[1]], walk[1..])
  {
    assert Move(tests, spec, walk, 0);
    forall i: nat | i + 1 < |walk[1..]| ensures Move(tests, tests[walk[1]], walk[1..], i) {
      assert Move(tests, spec, walk, i + 1);
      assert Move(tests, spec, walk, i);
    }
  }

  lemma {:induction false} FineAll(tests: Tests, names: seq<string>, depth: nat, path: seq<string>, n: string)
    requires depth <= MAX_DEPTH && ExploreAll(tests, names, depth, path) == Fine
    requires n in names && n in tests
    ensures Explore(tests, n, tests[n], depth + 1, path) == Fine
    decreases |names|
  {
    if names[0] != n {
      FineAll(tests, names[1..], depth, path, n);
    }
  }

  /** Where nothing is found, no walk goes deeper than allowed. */
  lemma {:induction false} FineMeansShallow(tests: Tests, name: string, spec: Spec, depth: nat, path: seq<string>, walk: seq<string>)
    requires depth <= MAX_DEPTH + 1 && Explore(tests, name, spec, depth, path) == Fine
    requires IsWalk(tests, name, spec, walk)
    ensures depth + |walk| - 1 <= MAX_DEPTH
    decreases |walk|
  {
    if |walk| > 1 {
      WalkTail(tests, name, spec, walk);
      TargetsAre(spec);
      FineAll(tests, Targets(spec), depth, path + [name], walk[1]);
      FineMeansShallow(tests, walk[1], tests[walk[1]], depth + 1, path + [name], walk[1..]);
    }
  }

  lemma WalkOn(tests: Tests, root: string, spec: Spec, walk: seq<string>, n: string)
    requires IsWalk(tests, root, spec, walk) && n in tests
    requires |walk| > 1 ==> walk[|walk| - 1] in tests
    requires Executes(SpecAt(tests, spec, walk, |walk| - 1), n)
    ensures IsWalk(tests, root, spec, walk + [n])
  {
    forall i: nat | i + 1 < |walk + [n]| ensures Move(tests, spec, walk + [n], i) {
      assert i + 1 < |walk| ==> Move(tests, spec, walk, i);
    }
  }

  /** What a finding says: a walk that comes back to a name on it, or one that is too deep. */
  ghost predicate IsRight(tests: Tests, root: string, spec: Spec, v: Verdict) {
    match v
    case Fine => true
    case Cycle(p) => IsWalk(tests, root, spec, p) && NoRepeats(p[..|p| - 1]) && p[|p| - 1] in p[..|p| - 1]
    case TooDeep(n, d) =>
      d == 11 && exists w :: IsWalk(tests, root, spec, w) && |w| == d + 1 && w[d] == n
  }

  lemma {:induction false} FindingsAreRight(tests: Tests, root: string, spec: Spec, name: string, path: seq<string>)
    requires IsWalk(tests, root, spec, path + [name]) && NoRepeats(path) && |path| <= MAX_DEPTH + 1
    requires |path| > 0 ==> name in tests
    ensures IsRight(tests, root, spec,
                    Explore(tests, name, SpecAt(tests, spec, path + [name], |path|), |path|, path))
    decreases MAX_DEPTH + 1 - |path|, 1, 0
  {
    var walk := path + [name];
    assert walk[..|walk| - 1] == path;
    if |path| <= MAX_DEPTH && name !in path {
      var s := SpecAt(tests, spec, walk, |path|);
      TargetsAre(s);
      if s != [] {
        AllFindingsAreRight(tests, root, spec, Targets(s), walk);
      }
    } else {
      assert |path| > MAX_DEPTH ==> walk[|path|] == name;
    }
  }

  lemma {:induction false} AllFindingsAreRight(tests: Tests, root: string, spec: Spec, names: seq<string>, path: seq<string>)
    requires IsWalk(tests, root, spec, path) && NoRepeats(path) && 0 < |path| <= MAX_DEPTH + 1
    requires |path| > 1 ==> path[|path| - 1] in tests
    requires forall n {:trigger n in names} :: n in names ==> Executes(SpecAt(tests, spec, path, |path| - 1), n)
    ensures IsRight(tests, root, spec, ExploreAll(tests, names, |path| - 1, path))
    decreases MAX_DEPTH + 1 - |path|, 2, |names|
  {
    if names != [] {
      assert names[0] in names;
      assert forall n {:trigger n in names[1..]} :: n in names[1..] ==> n in names;
      if names[0] in tests {
        WalkOn(tests, root, spec, path, names[0]);
        assert (path + [names[0]])[|path|] == names[0];
        FindingsAreRight(tests, root, spec, names[0], path);
      }
      AllFindingsAreRight(tests, root, spec, names[1..], path);
    }
  }

  // ----- Going round ------------------------------------------------------------------

  /** Where on a walk with a cycle from k to last one is after i moves. */
  function Around(k: nat, last: nat, i: nat): (r: nat)
    requires k < last
    ensures r < last
  {
    if i < last then i else Around(k, last, i - (last - k))
  }

  lemma {:induction false} AroundNext(k: nat, last: nat, i: nat)
    requires k < last
    ensures Around(k, last, i + 1) == Around(k, last, i) + 1
            || (Around(k, last, i) + 1 == last && Around(k, last, i + 1) == k)
  {
    if i >= last {
      AroundNext(k, last, i - (last - k));
    }
  }

  lemma {:induction false} AroundStarts(k: nat, last: nat, i: nat)
    requires k < last && i > 0 && Around(k, last, i) == 0
    ensures k == 0
  {
    if i >= last && i - (last - k) > 0 {
      AroundStarts(k, last, i - (last - k));
    }
  }

  /** The root Test that the graph is entered by is the one that its name stands for, if the name exists. */
  predicate SameRoot(tests: Tests, root: string, spec: Spec) {
    root in tests ==> tests[root] == spec
  }

  /** A walk that comes back can be made as long as one likes. */
  lemma CycleGoesOn(tests: Tests, root: string, spec: Spec, walk: seq<string>, k: nat, n: nat) returns (long: seq<string>)
    requires SameRoot(tests, root, spec) && IsWalk(tests, root, spec, walk)
    requires k < |walk| - 1 && walk[k] == walk[|walk| - 1]
    ensures IsWalk(tests, root, spec, long) && |long| == n + 1
  {
    var last := |walk| - 1;
    long := seq(n + 1, i requires 0 <= i <= n => walk[Around(k, last, i)]);
    forall i: nat | i + 1 < |long| ensures Move(tests, spec, long, i) {
      var a := Around(k, last, i);
      AroundNext(k, last, i);
      assert long[i] == walk[a] && long[i + 1] == walk[a + 1];
      assert Move(tests, spec, walk, a);
      if i > 0 && a == 0 {
        AroundStarts(k, last, i);
        assert k == 0 && walk[0] == walk[last];
        assert Move(tests, spec, walk, last - 1);
      }
    }
  }

  /** No error is reported exactly when no walk from the root makes more than ten moves. */
  lemma NilMeansShallow(tests: Tests, root: string, spec: Spec)
    requires SameRoot(tests, root, spec)
    ensures Explore(tests, root, spec, 0, []) == Fine
            <==> forall walk :: IsWalk(tests, root, spec, walk) ==> |walk| - 1 <= 10
  {
    var v := Explore(tests, root, spec, 0, []);
    if v == Fine {
      forall walk | IsWalk(tests, root, spec, walk) ensures |walk| - 1 <= 10 {
        FineMeansShallow(tests, root, spec, 0, [], walk);
      }
    } else {
      assert [] + [root] == [root];
      FindingsAreRight(tests, root, spec, root, []);
      if v.Cycle? {
        var k :| 0 <= k < |v.path| - 1 && v.path[..|v.path| - 1][k] == v.path[|v.path| - 1];
        var long := CycleGoesOn(tests, root, spec, v.path, k, MAX_DEPTH + 1);
      }
    }
  }

  /** Then no walk comes back to a name on it: what the root reaches has no cycle. */
  lemma NilMeansAcyclic(tests: Tests, root: string, spec: Spec, walk: seq<string>)
    requires SameRoot(tests, root, spec) && Explore(tests, root, spec, 0, []) == Fine
    requires IsWalk(tests, root, spec, walk)
    ensures NoRepeats(walk)
  {
    forall k, m | 0 <= k < m < |walk| ensures walk[k] != walk[m] {
      if walk[k] == walk[m] {
        var part := walk[..m + 1];
        forall i: nat | i + 1 < |part| ensures Move(tests, spec, part, i) {
          assert Move(tests, spec, walk, i);
        }
        var long := CycleGoesOn(tests, root, spec, part, k, MAX_DEPTH + 1);
        FineMeansShallow(tests, root, spec, 0, [], long);
      }
    }
  }

  /** Whatever the lookup, an error names a real walk. */
  lemma ErrorsAreRight(tests: Tests, root: string, spec: Spec)
    ensures IsRight(tests, root, spec, Explore(tests, root, spec, 0, []))
  {
    assert [] + [root] == [root];
    FindingsAreRight(tests, root, spec, root, []);
  }
}
