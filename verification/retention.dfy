/** A retention pass: the objects of old runs go first, then the partition that lists them. */
module Retention {
  import opened Bytes
  import opened Names
  import opened Partitions

  datatype RunRef = RunRef(ns: string, uid: string)

  /** Where a run's objects are; None for a run without a namespace or uid. */
  function Prefix(r: RunRef): Option<string> {
    if r.ns == "" || r.uid == "" then None else Some("runs/" + r.ns + "/" + r.uid + "/")
  }

  /** What the store and the object storage do. */
  datatype Op = Removed(prefix: string) | Dropped(p: Partition) | Pruned(before: int)

  /** Which calls fail in this pass. */
  datatype Troubles = Troubles(listing: bool, reading: set<Partition>, removing: set<string>, dropping: set<Partition>,
                               pruning: bool)

  type Rows = map<Partition, seq<RunRef>>

  function RunsIn(rows: Rows, p: Partition): seq<RunRef> {
    if p in rows then rows[p] else []
  }

  // ----- One partition ----------------------------------------------------------------

  /** The removals up to the first that fails, and which run that was. */
  datatype Removal = Removal(ops: seq<Op>, failedAt: Option<nat>)

  function Removals(runs: seq<RunRef>, t: Troubles): Removal {
    if runs == [] then Removal([], None)
    else
      var n := |runs| - 1;
      var before := Removals(runs[..n], t);
      if before.failedAt.Some? || Prefix(runs[n]).None? then before
      else if Prefix(runs[n]).value in t.removing then Removal(before.ops, Some(n))
      else before.(ops := before.ops + [Removed(Prefix(runs[n]).value)])
  }

  /** What was done, how many runs were dealt with, and whether the partition had to stay. */
  datatype Outcome = Outcome(ops: seq<Op>, removed: nat, failed: bool)

  function DropOutcome(objects: bool, rows: Rows, p: Partition, t: Troubles): Outcome {
    if objects then
      if p in t.reading then Outcome([], 0, true)
      else
        var r := Removals(RunsIn(rows, p), t);
        if r.failedAt.Some? then Outcome(r.ops, r.failedAt.value, true)
        else if p in t.dropping then Outcome(r.ops, |RunsIn(rows, p)|, true)
        else Outcome(r.ops + [Dropped(p)], |RunsIn(rows, p)|, false)
    else if p in t.dropping then Outcome([], 0, true)
    else Outcome([Dropped(p)], 0, false)
  }

  // ----- A pass -----------------------------------------------------------------------

  datatype Result = Result(ops: seq<Op>, dropped: seq<Partition>, removedRuns: nat, failures: nat)

  function Clean(objects: bool, rows: Rows, ps: seq<Partition>, t: Troubles): Result {
    if ps == [] then Result([], [], 0, 0)
    else
      var n := |ps| - 1;
      var r := Clean(objects, rows, ps[..n], t);
      var o := DropOutcome(objects, rows, ps[n], t);
      Result(r.ops + o.ops, if o.failed then r.dropped else r.dropped + [ps[n]], r.removedRuns + o.removed,
             if o.failed then r.failures + 1 else r.failures)
  }

  /** The whole pass; None when it refuses to start. */
  function Pass(objects: bool, retention: int, rows: Rows, existing: seq<Partition>, now: int, t: Troubles): Option<Result> {
    if retention <= 0 || t.listing then None
    else
      var r := Clean(objects, rows, Droppable(existing, now - retention), t);
      Some(if t.pruning then r.(failures := r.failures + 1) else r.(ops := r.ops + [Pruned(now - retention)]))
  }

  class Job {
    const objects: bool
    const retention: int
    const rows: Rows
    var done: seq<Op>

    constructor (objects: bool, retention: int, rows: Rows)
      ensures this.objects == objects && this.retention == retention && this.rows == rows && done == []
    {
      this.objects, this.retention, this.rows, done := objects, retention, rows, [];
    }

    method DropPartition(p: Partition, t: Troubles) returns (removed: nat, failed: bool)
      modifies this
      ensures var o := DropOutcome(objects, rows, p, t);
              done == old(done) + o.ops && removed == o.removed && failed == o.failed
    {
      if objects {
        if p in t.reading {
          return 0, true;
        }
        var runs := RunsIn(rows, p);
        assert runs[..|runs|] == runs;
        for i := 0 to |runs|
          invariant done == old(done) + Removals(runs[..i], t).ops
          invariant Removals(runs[..i], t).failedAt.None?
        {
          assert runs[..i + 1][..i] == runs[..i];
          var prefix := Prefix(runs[i]);
          if prefix.None? {
            continue;
          }
          if prefix.value in t.removing {
            FailedStays(runs, i + 1, t);
            return i, true;
          }
          done := done + [Removed(prefix.value)];
        }
        if p in t.dropping {
          return |runs|, true;
        }
        done := done + [Dropped(p)];
        return |runs|, false;
      }
      if p in t.dropping {
        return 0, true;
      }
      done := done + [Dropped(p)];
      return 0, false;
    }

    method RunOnce(existing: seq<Partition>, now: int, t: Troubles) returns (r: Option<Result>)
      modifies this
      ensures r == Pass(objects, retention, rows, existing, now, t)
      ensures done == old(done) + if r.Some? then r.value.ops else []
    {
      if retention <= 0 || t.listing {
        return None;
      }
      var ps := PartitionsToDrop(existing, now, retention);
      var dropped, removedRuns, failures, ops := DropAll(ps, t);
      if t.pruning {
        return Some(Result(ops, dropped, removedRuns, failures + 1));
      }
      ConcatAssoc(old(done), ops, [Pruned(now - retention)]);
      done := done + [Pruned(now - retention)];
      return Some(Result(ops + [Pruned(now - retention)], dropped, removedRuns, failures));
    }

    /** The loop over the partitions; ops is what it did, in order. */
    method DropAll(ps: seq<Partition>, t: Troubles)
      returns (dropped: seq<Partition>, removedRuns: nat, failures: nat, ops: seq<Op>)
      modifies this
      ensures Result(ops, dropped, removedRuns, failures) == Clean(objects, rows, ps, t)
      ensures done == old(done) + ops
    {
      dropped, removedRuns, failures, ops := [], 0, 0, [];
      ghost var before := done;
      for i := 0 to |ps|
        invariant done == before + ops
        invariant Result(ops, dropped, removedRuns, failures) == Clean(objects, rows, ps[..i], t)
      {
        CleanOneMore(objects, rows, ps, i, t);
        var n, failed := DropPartition(ps[i], t);
        var more := DropOutcome(objects, rows, ps[i], t).ops;
        ConcatAssoc(before, ops, more);
        ops := ops + more;
        removedRuns := removedRuns + n;
        if failed {
          failures := failures + 1;
        } else {
          dropped := dropped + [ps[i]];
        }
      }
      assert ps[..|ps|] == ps;
    }
  }

  lemma CleanOneMore(objects: bool, rows: Rows, ps: seq<Partition>, i: nat, t: Troubles)
    requires i < |ps|
    ensures Clean(objects, rows, ps[..i + 1], t) ==
            var r := Clean(objects, rows, ps[..i], t);
            var o := DropOutcome(objects, rows, ps[i], t);
            Result(r.ops + o.ops, if o.failed then r.dropped else r.dropped + [ps[i]], r.removedRuns + o.removed,
                   if o.failed then r.failures + 1 else r.failures)
  {
    assert ps[..i + 1][..i] == ps[..i];
  }

  lemma {:induction false} FailedStays(runs: seq<RunRef>, n: nat, t: Troubles)
    requires n <= |runs| && Removals(runs[..n], t).failedAt.Some?
    ensures Removals(runs, t) == Removals(runs[..n], t)
    decreases |runs|
  {
    if n == |runs| {
      assert runs[..n] == runs;
    } else {
      var m := |runs| - 1;
      assert runs[..m][..n] == runs[..n];
      FailedStays(runs[..m], n, t);
    }
  }

  // ----- Files before rows ------------------------------------------------------------

  /** The objects of a run are gone, or it can have none. */
  predicate Gone(ops: seq<Op>, r: RunRef) {
    Prefix(r).None? || Removed(Prefix(r).value) in ops
  }

  /** All removals succeed exactly when none of the prefixes fails; then all objects are gone. */
  lemma {:induction false} RemovalsSucceed(runs: seq<RunRef>, t: Troubles)
    ensures Removals(runs, t).failedAt.None? <==>
            forall r {:trigger Prefix(r)} :: r in runs && Prefix(r).Some? ==> Prefix(r).value !in t.removing
    ensures Removals(runs, t).failedAt.None? ==> forall r {:trigger r in runs} :: r in runs ==> Gone(Removals(runs, t).ops, r)
  {
    if runs != [] {
      var n := |runs| - 1;
      RemovalsSucceed(runs[..n], t);
      assert forall r {:trigger r in runs} :: r in runs <==> r in runs[..n] || r == runs[n];
      assert Prefix(runs[n]) == Prefix(runs[n]);
    }
  }

  /** Nothing but objects is removed before a partition is dropped. */
  lemma {:induction false} RemovalsOnlyRemove(runs: seq<RunRef>, t: Troubles)
    ensures forall o {:trigger o in Removals(runs, t).ops} :: o in Removals(runs, t).ops ==> o.Removed?
  {
    if runs != [] {
      RemovalsOnlyRemove(runs[..|runs| - 1], t);
    }
  }

  /** Wherever a partition is dropped, the objects of all its runs were removed before. */
  ghost predicate FilesBeforeRows(objects: bool, rows: Rows, ops: seq<Op>) {
    forall k {:trigger ops[k]} :: 0 <= k < |ops| && ops[k].Dropped? && objects ==>
      forall r {:trigger r in RunsIn(rows, ops[k].p)} :: r in RunsIn(rows, ops[k].p) ==> Gone(ops[..k], r)
  }

  lemma FilesBeforeRowsJoin(objects: bool, rows: Rows, a: seq<Op>, b: seq<Op>)
    requires FilesBeforeRows(objects, rows, a) && FilesBeforeRows(objects, rows, b)
    ensures FilesBeforeRows(objects, rows, a + b)
  {
    var all := a + b;
    forall k | 0 <= k < |all| && all[k].Dropped? && objects
      ensures forall r {:trigger r in RunsIn(rows, all[k].p)} :: r in RunsIn(rows, all[k].p) ==> Gone(all[..k], r)
    {
      if k < |a| {
        assert all[k] == a[k] && all[..k] == a[..k];
      } else {
        assert all[k] == b[k - |a|] && all[..k] == a + b[..k - |a|];
      }
    }
  }

  lemma OneIsInOrder(objects: bool, rows: Rows, p: Partition, t: Troubles)
    ensures FilesBeforeRows(objects, rows, DropOutcome(objects, rows, p, t).ops)
  {
    var ops := DropOutcome(objects, rows, p, t).ops;
    var r := Removals(RunsIn(rows, p), t);
    RemovalsOnlyRemove(RunsIn(rows, p), t);
    RemovalsSucceed(RunsIn(rows, p), t);
    if objects && ops != [] {
      assert r.ops <= ops;
      forall j | 0 <= j < |r.ops| ensures ops[j].Removed? {
        assert ops[j] == r.ops[j] && r.ops[j] in r.ops;
      }
    }
    forall k | 0 <= k < |ops| && ops[k].Dropped? && objects
      ensures forall x {:trigger x in RunsIn(rows, ops[k].p)} :: x in RunsIn(rows, ops[k].p) ==> Gone(ops[..k], x)
    {
      assert ops == r.ops + [Dropped(p)] && k == |r.ops|;
      assert ops[..k] == r.ops;
    }
  }

  lemma {:induction false} CleanIsInOrder(objects: bool, rows: Rows, ps: seq<Partition>, t: Troubles)
    ensures FilesBeforeRows(objects, rows, Clean(objects, rows, ps, t).ops)
  {
    if ps != [] {
      var n := |ps| - 1;
      CleanIsInOrder(objects, rows, ps[..n], t);
      OneIsInOrder(objects, rows, ps[n], t);
      FilesBeforeRowsJoin(objects, rows, Clean(objects, rows, ps[..n], t).ops, DropOutcome(objects, rows, ps[n], t).ops);
    }
  }

  /** Whatever fails, no partition goes before the objects of its runs have gone. */
  lemma PassIsInOrder(objects: bool, retention: int, rows: Rows, existing: seq<Partition>, now: int, t: Troubles)
    requires Pass(objects, retention, rows, existing, now, t).Some?
    ensures FilesBeforeRows(objects, rows, Pass(objects, retention, rows, existing, now, t).value.ops)
  {
    var ps := Droppable(existing, now - retention);
    CleanIsInOrder(objects, rows, ps, t);
    if !t.pruning {
      FilesBeforeRowsJoin(objects, rows, Clean(objects, rows, ps, t).ops, [Pruned(now - retention)]);
    }
  }

  /** Nothing stands in the way of dropping the partition. */
  ghost predicate Unhindered(objects: bool, rows: Rows, p: Partition, t: Troubles) {
    && p !in t.dropping
    && (objects ==> p !in t.reading
                    && forall r {:trigger Prefix(r)} :: r in RunsIn(rows, p) && Prefix(r).Some? ==> Prefix(r).value !in t.removing)
  }

  lemma OneDrops(objects: bool, rows: Rows, p: Partition, t: Troubles, q: Partition)
    ensures DropOutcome(objects, rows, p, t).failed <==> !Unhindered(objects, rows, p, t)
    ensures Dropped(q) in DropOutcome(objects, rows, p, t).ops <==> q == p && Unhindered(objects, rows, p, t)
  {
    var r := Removals(RunsIn(rows, p), t);
    RemovalsSucceed(RunsIn(rows, p), t);
    RemovalsOnlyRemove(RunsIn(rows, p), t);
    assert Dropped(q) !in r.ops;
  }

  lemma {:induction false} CleanDrops(objects: bool, rows: Rows, ps: seq<Partition>, t: Troubles, p: Partition)
    ensures p in Clean(objects, rows, ps, t).dropped <==> p in ps && Unhindered(objects, rows, p, t)
    ensures Dropped(p) in Clean(objects, rows, ps, t).ops <==> p in ps && Unhindered(objects, rows, p, t)
    ensures |Clean(objects, rows, ps, t).dropped| + Clean(objects, rows, ps, t).failures == |ps|
  {
    if ps != [] {
      var n := |ps| - 1;
      CleanDrops(objects, rows, ps[..n], t, p);
      assert p in ps <==> p in ps[..n] || p == ps[n];
      OneDrops(objects, rows, ps[n], t, p);
      assert Dropped(p) in Clean(objects, rows, ps, t).ops
             <==> Dropped(p) in Clean(objects, rows, ps[..n], t).ops || Dropped(p) in DropOutcome(objects, rows, ps[n], t).ops;
    }
  }

  /**
   A pass drops exactly the partitions past the cutoff that nothing hinders: a failure elsewhere does
   not hold them up. Every other one past the cutoff is kept and reported, as is a failure to prune.
   */
  lemma PassDrops(objects: bool, retention: int, rows: Rows, existing: seq<Partition>, now: int, t: Troubles, p: Partition)
    requires Pass(objects, retention, rows, existing, now, t).Some?
    ensures var r := Pass(objects, retention, rows, existing, now, t).value;
            && (p in r.dropped <==> p in existing && p.end <= now - retention && Unhindered(objects, rows, p, t))
            && (Dropped(p) in r.ops <==> p in r.dropped)
            && |r.dropped| + r.failures == |Droppable(existing, now - retention)| + if t.pruning then 1 else 0
  {
    CleanDrops(objects, rows, Droppable(existing, now - retention), t, p);
    DroppableEnd(existing, now - retention, p);
  }

  /** A pass never touches a partition that the window of kept runs meets. */
  lemma PassKeepsTheWindow(objects: bool, retention: int, rows: Rows, existing: seq<Partition>, now: int, t: Troubles,
                           p: Partition, at: int)
    requires Pass(objects, retention, rows, existing, now, t).Some?
    requires Holds(p, at) && now - retention <= at
    ensures Dropped(p) !in Pass(objects, retention, rows, existing, now, t).value.ops
  {
    PassDrops(objects, retention, rows, existing, now, t, p);
  }

  // ----- What a pass does, and nothing else -------------------------------------------

  lemma PrefixForm(r: RunRef)
    requires Prefix(r).Some?
    ensures Prefix(r).value == "runs/" + (r.ns + ['/'] + (r.uid + ['/']))
  {
    ConcatAssoc("runs/", r.ns, "/");
    ConcatAssoc(r.ns + "/", r.uid, "/");
    ConcatAssoc("runs/", r.ns + "/", r.uid + "/");
  }

  lemma SameRest(a: string, b: string, c: string)
    requires a + b == a + c
    ensures b == c
  {
    assert b == (a + b)[|a|..] && c == (a + c)[|a|..];
  }

  /** No run's objects lie under another one's prefix: removing the one leaves the other. */
  lemma PrefixesApart(a: RunRef, b: RunRef)
    requires '/' !in a.ns && '/' !in a.uid && '/' !in b.ns && '/' !in b.uid
    requires Prefix(a).Some? && Prefix(b).Some? && Prefix(a).value <= Prefix(b).value
    ensures a == b
  {
    PrefixForm(a);
    PrefixForm(b);
    var rest := Prefix(b).value[|Prefix(a).value|..];
    var ends, ends2 := a.uid + ['/'], b.uid + ['/'];
    ConcatAssoc("runs/", a.ns + ['/'] + ends, rest);
    SameRest("runs/", a.ns + ['/'] + ends + rest, b.ns + ['/'] + ends2);
    ConcatAssoc(a.ns + ['/'], ends, rest);
    SplitFirst(a.ns, ends + rest, b.ns, ends2, '/');
    ConcatEmpty(ends2);
    SplitFirst(a.uid, rest, b.uid, [], '/');
  }

  /** For example. */
  lemma PrefixOfARun()
    ensures Prefix(RunRef("default", "7f3a")) == Some("runs/default/7f3a/")
  {
    assert "runs/" + "default" + "/" + "7f3a" + "/" == "runs/default/7f3a/";
  }

  /** Removing these runs' objects fails: the run can have some, and the call for them does not succeed. */
  predicate Fails(r: RunRef, t: Troubles) {
    Prefix(r).Some? && Prefix(r).value in t.removing
  }

  /** How many runs there are before the first that fails. */
  function Reached(runs: seq<RunRef>, t: Troubles): (n: nat)
    ensures n <= |runs| && (n < |runs| ==> Fails(runs[n], t))
    ensures forall i :: 0 <= i < n ==> !Fails(runs[i], t)
  {
    if runs == [] || Fails(runs[0], t) then 0
    else
      var n := Reached(runs[1..], t);
      assert forall i :: 0 < i <= n ==> runs[i] == runs[1..][i - 1] || i == |runs|;
      n + 1
  }

  /** The removals of these runs' objects, run by run. */
  function RemovalsOf(runs: seq<RunRef>): seq<Op> {
    if runs == [] then []
    else (if runs[0].ns == "" || runs[0].uid == "" then [] else [Removed(Prefix(runs[0]).value)]) + RemovalsOf(runs[1..])
  }

  lemma {:induction false} RemovalsOfSnoc(runs: seq<RunRef>, r: RunRef)
    ensures RemovalsOf(runs + [r]) == RemovalsOf(runs) + RemovalsOf([r])
  {
    if runs == [] {
      assert [] + [r] == [r];
      ConcatEmpty(RemovalsOf([r]));
    } else {
      ConcatTail(runs, [r]);
      RemovalsOfSnoc(runs[1..], r);
      ConcatAssoc(RemovalsOf([runs[0]]), RemovalsOf(runs[1..]), RemovalsOf([r]));
    }
  }

  /** The objects of the runs are removed in order, up to the first that fails. */
  lemma {:induction false} RemovalsReach(runs: seq<RunRef>, t: Troubles)
    ensures var n := Reached(runs, t);
            && Removals(runs, t).ops == RemovalsOf(runs[..n])
            && Removals(runs, t).failedAt == if n == |runs| then None else Some(n)
  {
    if runs == [] {
      assert runs[..0] == [];
    } else {
      var m := |runs| - 1;
      var n := Reached(runs[..m], t);
      RemovalsReach(runs[..m], t);
      ReachedFirst(runs, t, n);
      assert runs[..m][..n] == runs[..n] && runs[..|runs|] == runs;
      if n == m {
        assert runs[..m][..m] == runs[..m];
        LastRemoval(runs, t);
      }
    }
  }

  lemma RemovalOfOne(r: RunRef)
    ensures RemovalsOf([r]) == if Prefix(r).None? then [] else [Removed(Prefix(r).value)]
  {
    assert [r][1..] == [];
    assert RemovalsOf([]) == [];
  }

  /** When all runs but the last were dealt with. */
  lemma LastRemoval(runs: seq<RunRef>, t: Troubles)
    requires runs != []
    requires var before := Removals(runs[..|runs| - 1], t); before.failedAt == None && before.ops == RemovalsOf(runs[..|runs| - 1])
    ensures var failed := Fails(runs[|runs| - 1], t);
            && Removals(runs, t).failedAt == (if failed then Some(|runs| - 1) else None)
            && Removals(runs, t).ops == RemovalsOf(if failed then runs[..|runs| - 1] else runs)
  {
    var before, last := runs[..|runs| - 1], runs[|runs| - 1];
    if !Fails(last, t) {
      assert runs == before + [last];
      RemovalsOfSnoc(before, last);
      RemovalOfOne(last);
      ConcatEmpty(RemovalsOf(before));
    }
  }

  /** The number of them is that of the first that fails. */
  lemma ReachedFirst(runs: seq<RunRef>, t: Troubles, n: nat)
    requires n < |runs| && n == Reached(runs[..|runs| - 1], t)
    ensures Reached(runs, t) == if n < |runs| - 1 || Fails(runs[n], t) then n else n + 1
  {
    assert forall i :: 0 <= i < |runs| - 1 ==> runs[i] == runs[..|runs| - 1][i];
  }

  /** How many runs are dealt with before partition p is dropped or given up. */
  function Dealt(objects: bool, rows: Rows, p: Partition, t: Troubles): nat {
    if !objects || p in t.reading then 0 else Reached(RunsIn(rows, p), t)
  }

  function SumDealt(objects: bool, rows: Rows, ps: seq<Partition>, t: Troubles): nat {
    if ps == [] then 0
    else SumDealt(objects, rows, ps[..|ps| - 1], t) + Dealt(objects, rows, ps[|ps| - 1], t)
  }

  lemma {:induction false} CleanCounts(objects: bool, rows: Rows, ps: seq<Partition>, t: Troubles)
    ensures Clean(objects, rows, ps, t).removedRuns == SumDealt(objects, rows, ps, t)
    ensures forall o {:trigger o in Clean(objects, rows, ps, t).ops} :: o in Clean(objects, rows, ps, t).ops ==> !o.Pruned?
  {
    if ps != [] {
      var n := |ps| - 1;
      CleanCounts(objects, rows, ps[..n], t);
      RemovalsReach(RunsIn(rows, ps[n]), t);
      RemovalsOnlyRemove(RunsIn(rows, ps[n]), t);
    }
  }

  /**
   A pass reports how many runs it has dealt with; last of all, and once, it prunes the audit
   log up to the cutoff, unless that fails.
   */
  lemma PassCountsAndPrunes(objects: bool, retention: int, rows: Rows, existing: seq<Partition>, now: int, t: Troubles)
    requires Pass(objects, retention, rows, existing, now, t).Some?
    ensures var r := Pass(objects, retention, rows, existing, now, t).value;
            && r.removedRuns == SumDealt(objects, rows, Droppable(existing, now - retention), t)
            && forall k {:trigger r.ops[k]} :: 0 <= k < |r.ops| ==>
                 (r.ops[k].Pruned? <==> !t.pruning && k == |r.ops| - 1) && (r.ops[k].Pruned? ==> r.ops[k].before == now - retention)
    ensures !t.pruning ==> Pass(objects, retention, rows, existing, now, t).value.ops != []
  {
    var ps := Droppable(existing, now - retention);
    CleanCounts(objects, rows, ps, t);
    var before := Clean(objects, rows, ps, t).ops;
    forall k | 0 <= k < |before| ensures !before[k].Pruned? {
      assert before[k] in before;
    }
  }
}
