/**
 What a parallel run comes to, said of its workers: where each worker's verdict is from,
 what the run's verdict is over them, and when a pass ends the run.
 */
module ParallelVerdicts {
  import opened Bytes
  import opened Phases
  import opened Names
  import opened ParallelRuns
  import opened ParallelProtocol

  // ----- The run's verdict ------------------------------------------------------------

  /** A worker's stored phase; Unset where nothing is stored. */
  function PhaseOf(s: Status, i: nat): Phase {
    if i in s.steps then s.steps[i].phase else Unset
  }

  /** The run's phase over those of its workers: an error wins, then a failure or abort; else all have passed. */
  ghost predicate Sums(s: Status, n: nat) {
    && (forall i: nat {:trigger PhaseOf(s, i)} :: i < n ==> PhaseOf(s, i) in {Passed, Failed, Error, Aborted})
    && (s.phase == Error <==> exists i: nat {:trigger PhaseOf(s, i)} :: i < n && PhaseOf(s, i) == Error)
    && (s.phase == Failed <==>
          && (forall i: nat {:trigger PhaseOf(s, i)} :: i < n ==> PhaseOf(s, i) != Error)
          && exists i: nat {:trigger PhaseOf(s, i)} :: i < n && PhaseOf(s, i) in {Failed, Aborted})
    && (s.phase == Passed <==> forall i: nat {:trigger PhaseOf(s, i)} :: i < n ==> PhaseOf(s, i) == Passed)
  }

  lemma AggregateSums(s: Status, n: nat)
    requires AllDone(s, n) && s.phase == Aggregate(s, n)
    ensures Sums(s, n)
  {
    forall i: nat | i < n ensures PhaseOf(s, i) == s.Step(i).phase && PhaseOf(s, i) in {Passed, Failed, Error, Aborted} {
      assert s.Done(i);
    }
  }

  /** In every reachable state a run that has ended, and is not being aborted, has the phase its workers call for. */
  lemma EndedAsItsWorkers(n: nat, worlds: seq<World>, events: seq<Event>, k: nat)
    requires IsRun(n, worlds, events) && k <= |events|
    requires worlds[k].Current().status.phase in {Passed, Failed, Error, Aborted} && !worlds[k].Current().abort
    ensures Sums(worlds[k].Current().status, n)
  {
    EveryWorkerCountedOnce(n, worlds, events, k);
    AggregateSums(worlds[k].Current().status, n);
  }

  /** What a pass stores is running, or, once all workers have finished, has the phase they call for. */
  lemma PassStores(n: nat, worlds: seq<World>, events: seq<Event>, k: nat)
    requires IsRun(n, worlds, events) && k < |events| && events[k] == Commit
    requires worlds[k + 1].history != worlds[k].history
    ensures var s := worlds[k + 1].Current().status;
            if worlds[k].pass.value.finished then s.phase != Running && Sums(s, n) else s.phase == Running
  {
    RunKeeps(n, worlds, events, k);
    RunKeeps(n, worlds, events, k + 1);
    assert Next(n, worlds[k], events[k], worlds[k + 1]);
    var p := worlds[k].pass.value;
    if p.finished {
      var s := worlds[k + 1].Current().status;
      assert s.steps == p.local.status.steps && PassInv(n, worlds[k], p);
      forall i: nat | i < n ensures s.Done(i) {
        assert p.local.status.Done(i);
      }
      AggregateIgnoresPhase(p.local.status, n);
      AggregateSums(s, n);
    }
  }

  // ----- Where verdicts are from ------------------------------------------------------

  /**
   What a look at a worker tells of its verdict: a Job that ended reports it; a worker set going, whose Job
   neither the cache nor a live read shows, is an orphan; and one whose Job is refused is in error.
   */
  predicate Tells(was: Phase, seen: Sighting, r: RunResult) {
    match seen
    case Found(Ended(result)) => r == result
    case NotFound(live, creation) =>
      if was != Unset then live != Present && r == RunResult(Error, OrphanJobMissing, None, [])
      else creation == Rejected && r == RunResult(Error, CompileError, None, [])
    case _ => false
  }

  /** Some look at worker i told of the verdict r. */
  ghost predicate Told(worlds: seq<World>, events: seq<Event>, k: nat, i: nat, r: RunResult)
    requires k <= |events| < |worlds|
  {
    exists m: nat {:trigger TellsAt(worlds, events, m, i, r)} :: m < k && TellsAt(worlds, events, m, i, r)
  }

  ghost predicate TellsAt(worlds: seq<World>, events: seq<Event>, m: nat, i: nat, r: RunResult)
    requires m < |events| < |worlds|
  {
    var p := worlds[m].pass;
    events[m].CheckNext? && p.Some? && p.value.next == i
    && PhaseOf(p.value.local.status, i) !in {Passed, Failed, Error, Aborted}
    && Tells(PhaseOf(p.value.local.status, i), events[m].seen, r)
  }

  ghost predicate AllTold(worlds: seq<World>, events: seq<Event>, k: nat, v: Verdicts)
    requires k <= |events| < |worlds|
  {
    forall i: nat {:trigger v[i]} :: i in v ==> Told(worlds, events, k, i, v[i])
  }

  lemma StaysTold(worlds: seq<World>, events: seq<Event>, k: nat, v: Verdicts)
    requires k < |events| < |worlds| && AllTold(worlds, events, k, v)
    ensures AllTold(worlds, events, k + 1, v)
  {
    forall i: nat | i in v ensures Told(worlds, events, k + 1, i, v[i]) {
      assert Told(worlds, events, k, i, v[i]);
      var m: nat :| m < k && TellsAt(worlds, events, m, i, v[i]);
    }
  }

  /** What a look adds to a pass's verdicts it tells. */
  lemma LookAdds(n: nat, w: World, seen: Sighting, w': World, i: nat)
    requires w.history != [] && Next(n, w, CheckNext(seen), w') && w.pass.Some? && w'.pass.Some?
    requires i in w'.pass.value.local.verdicts
    ensures var p, after := w.pass.value, w'.pass.value.local.verdicts;
            || (i in p.local.verdicts && after[i] == p.local.verdicts[i])
            || (i == p.next && PhaseOf(p.local.status, i) !in {Passed, Failed, Error, Aborted}
                && Tells(PhaseOf(p.local.status, i), seen, after[i]))
  {
    var p := w.pass.value;
    assert p.local.status.Step(p.next).phase == PhaseOf(p.local.status, p.next);
    assert Check(p.local.status, p.next, seen).Checked?;
  }

  lemma LookTells(n: nat, worlds: seq<World>, events: seq<Event>, k: nat)
    requires IsRun(n, worlds, events) && k < |events| && events[k].CheckNext?
    requires worlds[k + 1].pass.Some? && worlds[k].pass.Some?
    requires AllTold(worlds, events, k, worlds[k].pass.value.local.verdicts)
    ensures AllTold(worlds, events, k + 1, worlds[k + 1].pass.value.local.verdicts)
  {
    var v := worlds[k].pass.value.local.verdicts;
    StaysTold(worlds, events, k, v);
    var after := worlds[k + 1].pass.value.local.verdicts;
    forall i: nat | i in after ensures Told(worlds, events, k + 1, i, after[i]) {
      LookAdds(n, worlds[k], events[k].seen, worlds[k + 1], i);
      if i in v && after[i] == v[i] {
        assert Told(worlds, events, k + 1, i, v[i]);
      } else {
        assert TellsAt(worlds, events, k, i, after[i]);
      }
    }
  }

  /** No version and no pass has a verdict that no look told of. */
  lemma {:induction false} AllVerdictsTold(n: nat, worlds: seq<World>, events: seq<Event>, k: nat)
    requires IsRun(n, worlds, events) && k <= |events|
    ensures forall j {:trigger worlds[k].history[j]} :: 0 <= j < |worlds[k].history| ==>
              AllTold(worlds, events, k, worlds[k].history[j].verdicts)
    ensures worlds[k].pass.Some? ==> AllTold(worlds, events, k, worlds[k].pass.value.local.verdicts)
  {
    if k > 0 {
      AllVerdictsTold(n, worlds, events, k - 1);
      var w, w' := worlds[k - 1], worlds[k];
      assert Next(n, w, events[k - 1], w');
      if w.pass.Some? {
        StaysTold(worlds, events, k - 1, w.pass.value.local.verdicts);
      }
      forall j | 0 <= j < |w.history| ensures AllTold(worlds, events, k, w.history[j].verdicts) {
        StaysTold(worlds, events, k - 1, w.history[j].verdicts);
      }
      if events[k - 1].CheckNext? && w'.pass.Some? {
        LookTells(n, worlds, events, k - 1);
      }
    }
  }

  lemma EndedHasVerdict(v: Version, n: nat, i: nat)
    requires Accounts(v, n) && PhaseOf(v.status, i) in {Passed, Failed, Error, Aborted}
    ensures i in v.verdicts && v.status.steps[i] == WorkerStep(v.verdicts[i].phase, v.verdicts[i].message)
  {
    assert v.status.Done(i);
    assert v.status.Step(i) == WorkerStep(v.verdicts[i].phase, v.verdicts[i].message);
  }

  /**
   In every reachable state a worker that is recorded as ended has a verdict, with its phase and message, that a
   look at that very worker told of.
   */
  lemma VerdictsAreTheWorkers(n: nat, worlds: seq<World>, events: seq<Event>, k: nat, i: nat) returns (r: RunResult)
    requires IsRun(n, worlds, events) && k <= |events|
    requires PhaseOf(worlds[k].Current().status, i) in {Passed, Failed, Error, Aborted}
    ensures worlds[k].Current().status.steps[i] == WorkerStep(r.phase, r.message)
    ensures i in worlds[k].Current().verdicts && r == worlds[k].Current().verdicts[i]
    ensures Told(worlds, events, k, i, r)
  {
    AllVerdictsTold(n, worlds, events, k);
    EveryWorkerCountedOnce(n, worlds, events, k);
    EndedHasVerdict(worlds[k].Current(), n, i);
    r := worlds[k].Current().verdicts[i];
    assert AllTold(worlds, events, k, worlds[k].history[|worlds[k].history| - 1].verdicts);
  }

  // ----- The totals -------------------------------------------------------------------

  /** One of the four counts, summed over the workers below n that reported any. */
  function Total(v: Verdicts, n: nat, pick: Counts -> nat): nat {
    if n == 0 then 0
    else Total(v, n - 1, pick) + if n - 1 in v && v[n - 1].counts.Some? then pick(v[n - 1].counts.value) else 0
  }

  predicate AnyCounts(v: Verdicts, n: nat) {
    exists i: nat {:trigger v[i]} :: i < n && i in v && v[i].counts.Some?
  }

  lemma {:induction false} SumsAreTotals(v: Verdicts, n: nat)
    ensures SumCounts(v, n).Some? <==> AnyCounts(v, n)
    ensures !AnyCounts(v, n) ==> forall pick: Counts -> nat {:trigger Total(v, n, pick)} :: Total(v, n, pick) == 0
    ensures SumCounts(v, n).Some? ==>
              var c := SumCounts(v, n).value;
              && c.total == Total(v, n, (x: Counts) => x.total) && c.passed == Total(v, n, (x: Counts) => x.passed)
              && c.failed == Total(v, n, (x: Counts) => x.failed) && c.skipped == Total(v, n, (x: Counts) => x.skipped)
  {
    if n > 0 {
      SumsAreTotals(v, n - 1);
      if n - 1 in v && v[n - 1].counts.Some? {
        assert AnyCounts(v, n);
      }
      if AnyCounts(v, n - 1) {
        assert AnyCounts(v, n);
      }
    }
  }

  /** In every reachable state each stored count is the sum of what the workers with a verdict reported. */
  lemma CountsAreSums(n: nat, worlds: seq<World>, events: seq<Event>, k: nat)
    requires IsRun(n, worlds, events) && k <= |events|
    ensures var v, counts := worlds[k].Current().verdicts, worlds[k].Current().status.counts;
            && (counts.Some? <==> AnyCounts(v, n))
            && (counts.Some? ==>
                  && counts.value.total == Total(v, n, (x: Counts) => x.total)
                  && counts.value.passed == Total(v, n, (x: Counts) => x.passed)
                  && counts.value.failed == Total(v, n, (x: Counts) => x.failed)
                  && counts.value.skipped == Total(v, n, (x: Counts) => x.skipped))
  {
    EveryWorkerCountedOnce(n, worlds, events, k);
    SumsAreTotals(worlds[k].Current().verdicts, n);
  }

  lemma PathForm(i: nat, path: string)
    ensures ArtifactPath(i, path) == "workers/" + Decimal(i) + "/artifacts/" + path
  {
    ConcatAssoc(Decimal(i), ['/'], "artifacts/" + path);
    ConcatAssoc(['/'], "artifacts/", path);
    assert ['/'] + "artifacts/" == "/artifacts/";
    ConcatAssoc("workers/", Decimal(i), "/artifacts/" + path);
    ConcatAssoc("workers/" + Decimal(i), "/artifacts/", path);
  }

  lemma {:induction false} PrefixedAre(i: nat, artifacts: seq<string>, x: string)
    ensures |Prefixed(i, artifacts)| == |artifacts|
    ensures x in Prefixed(i, artifacts) <==> exists p :: p in artifacts && x == "workers/" + Decimal(i) + "/artifacts/" + p
  {
    if artifacts != [] {
      PrefixedAre(i, artifacts[1..], x);
      PathForm(i, artifacts[0]);
      assert forall p {:trigger p in artifacts} :: p in artifacts <==> p == artifacts[0] || p in artifacts[1..];
    }
  }

  function CountArtifacts(v: Verdicts, n: nat): nat {
    if n == 0 then 0 else CountArtifacts(v, n - 1) + if n - 1 in v then |v[n - 1].artifacts| else 0
  }

  lemma {:induction false} AsManyArtifacts(v: Verdicts, n: nat)
    ensures |SumArtifacts(v, n)| == CountArtifacts(v, n)
  {
    if n > 0 {
      AsManyArtifacts(v, n - 1);
      if n - 1 in v {
        PrefixedAre(n - 1, v[n - 1].artifacts, "");
      }
    }
  }

  /** One of the workers below n reported an artifact that is at x. */
  predicate FromSome(v: Verdicts, n: nat, x: string) {
    exists i: nat :: i < n && FromWorker(v, i, x)
  }

  predicate FromWorker(v: Verdicts, i: nat, x: string) {
    i in v && exists p :: p in v[i].artifacts && x == "workers/" + Decimal(i) + "/artifacts/" + p
  }

  lemma {:induction false} SumsAreReported(v: Verdicts, n: nat, x: string)
    ensures x in SumArtifacts(v, n) <==> FromSome(v, n, x)
  {
    if n > 0 {
      SumsAreReported(v, n - 1, x);
      assert FromSome(v, n, x) <==> FromSome(v, n - 1, x) || FromWorker(v, n - 1, x);
      if n - 1 in v {
        PrefixedAre(n - 1, v[n - 1].artifacts, x);
        assert x in multiset(Prefixed(n - 1, v[n - 1].artifacts)) <==> x in Prefixed(n - 1, v[n - 1].artifacts);
      }
    }
  }

  /** In every reachable state the stored artifacts are those of the workers with a verdict, each under its worker's path. */
  lemma ArtifactsAreTheWorkers(n: nat, worlds: seq<World>, events: seq<Event>, k: nat, x: string)
    requires IsRun(n, worlds, events) && k <= |events|
    ensures var v, artifacts := worlds[k].Current().verdicts, worlds[k].Current().status.artifacts;
            && (x in artifacts <==> FromSome(v, n, x))
            && |artifacts| == CountArtifacts(v, n)
  {
    EveryWorkerCountedOnce(n, worlds, events, k);
    var v, artifacts := worlds[k].Current().verdicts, worlds[k].Current().status.artifacts;
    SumsAreReported(v, n, x);
    AsManyArtifacts(v, n);
    assert |multiset(artifacts)| == |artifacts|;
    assert x in artifacts <==> x in multiset(artifacts);
  }

  // ----- A whole pass -----------------------------------------------------------------

  predicate HasEnded(s: Status, i: nat) {
    PhaseOf(s, i) in {Passed, Failed, Error, Aborted}
  }

  /** A look that fails for this pass: the Job, its result or the Job's creation. */
  predicate LookFails(was: Phase, seen: Sighting) {
    seen == Unreadable || seen == Found(ResultUnreadable) || (seen.NotFound? && was == Unset && seen.creation == CreateFails)
  }

  /** A worker set going whose Job neither the cache nor a live read shows. */
  predicate LooksGone(was: Phase, seen: Sighting) {
    seen.NotFound? && was != Unset && seen.live != Present
  }

  /** What a pass makes of a worker's step. */
  function StepAfter(was: WorkerStep, seen: Sighting): WorkerStep {
    if was.phase in {Passed, Failed, Error, Aborted} then was
    else if LooksGone(was.phase, seen) then WorkerStep(Error, OrphanJobMissing)
    else if seen.NotFound? && was.phase != Unset then was
    else if seen.NotFound? then
      if seen.creation == Created then WorkerStep(Queued, Reported("")) else WorkerStep(Error, CompileError)
    else if seen.Found? && seen.view.Ended? then WorkerStep(seen.view.result.phase, seen.view.result.message)
    else if seen == Found(PodRunning) then WorkerStep(Running, was.message)
    else was
  }

  lemma LookComesTo(s: Status, i: nat, seen: Sighting)
    ensures Check(s, i, seen).CheckFails? <==> !HasEnded(s, i) && LookFails(PhaseOf(s, i), seen)
    ensures match Check(s, i, seen)
            case CheckFails => true
            case Checked(s', finished, job, created) =>
              && (created <==> PhaseOf(s, i) == Unset && seen.NotFound? && seen.creation == Created)
              && s'.Step(i) == StepAfter(s.Step(i), seen)
              && (forall j: nat {:trigger s'.Step(j)} :: j != i ==> s'.Step(j) == s.Step(j))
              && (finished <==> HasEnded(s, i) || LooksGone(PhaseOf(s, i), seen) || (seen.Found? && seen.view.Ended?))
              && (job <==> !HasEnded(s, i) && seen.Found? && seen.view.Ended?)
  {
    assert PhaseOf(s, i) == s.Step(i).phase;
  }

  /**
   A pass over the first k workers fails exactly when a look at one of them does. Otherwise each worker's step
   comes of what was seen of that worker; they are all finished exactly when each had ended, was seen to
   have, or looks gone; and to be deleted are the Jobs of those seen to have ended.
   */
  lemma {:induction false} PassComesTo(s: Status, seen: seq<Sighting>, k: nat)
    requires k <= |seen|
    ensures CheckAll(s, seen, k).None? <==>
              exists i: nat {:trigger seen[i]} :: i < k && !HasEnded(s, i) && LookFails(PhaseOf(s, i), seen[i])
    ensures match CheckAll(s, seen, k)
            case None => true
            case Some((s', finished, jobs)) =>
              && (forall i: nat {:trigger s'.Step(i)} ::
                    s'.Step(i) == if i < k then StepAfter(s.Step(i), seen[i]) else s.Step(i))
              && (finished <==> forall i: nat {:trigger seen[i]} :: i < k ==>
                    HasEnded(s, i) || LooksGone(PhaseOf(s, i), seen[i]) || (seen[i].Found? && seen[i].view.Ended?))
              && (forall i: nat {:trigger i in jobs} ::
                    i in jobs <==> i < k && !HasEnded(s, i) && seen[i].Found? && seen[i].view.Ended?)
  {
    if k > 0 {
      PassComesTo(s, seen, k - 1);
      var before := CheckAll(s, seen, k - 1);
      if before.Some? {
        var b := before.value.0;
        LookComesTo(b, k - 1, seen[k - 1]);
        assert b.Step(k - 1) == s.Step(k - 1);
        assert PhaseOf(b, k - 1) == PhaseOf(s, k - 1);
      }
    }
  }
}
