/**
 A parallel run: one Job per worker, each worker's verdict folded into the run's status.
 The controller works on a possibly stale copy of the status, sees Jobs through a lagging
 cache, and writes the status back only if nobody else wrote in between.
 */
module ParallelRuns {
  import opened Bytes
  import opened Phases
  import opened Names

  // ----- Status -----------------------------------------------------------------------

  datatype Counts = Counts(total: nat, passed: nat, failed: nat, skipped: nat)
  {
    function Plus(c: Counts): Counts {
      Counts(total + c.total, passed + c.passed, failed + c.failed, skipped + c.skipped)
    }
  }

  /** Why a worker ended the way it did; OrphanJobMissing is the controller's own guess. */
  datatype Message = OrphanJobMissing | CompileError | Reported(text: string)

  datatype RunResult = RunResult(phase: Phase, message: Message, counts: Option<Counts>, artifacts: seq<string>)

  datatype WorkerStep = WorkerStep(phase: Phase, message: Message)

  const FRESH := WorkerStep(Unset, Reported(""))
  const ORPHANED := RunResult(Error, OrphanJobMissing, None, [])
  const REJECTED := RunResult(Error, CompileError, None, [])

  datatype Status = Status(phase: Phase, steps: map<nat, WorkerStep>, counts: Option<Counts>, artifacts: seq<string>)
  {
    function Step(i: nat): WorkerStep {
      if i in steps then steps[i] else FRESH
    }

    predicate Done(i: nat) {
      IsTerminal(Step(i).phase)
    }
  }

  function AddCounts(a: Option<Counts>, b: Option<Counts>): Option<Counts> {
    if b.None? then a else if a.None? then b else Some(a.value.Plus(b.value))
  }

  /** Worker i's artifacts, under the prefix of its own. */
  function Prefixed(i: nat, artifacts: seq<string>): seq<string> {
    if artifacts == [] then [] else [ArtifactPath(i, artifacts[0])] + Prefixed(i, artifacts[1..])
  }

  /** A worker's verdict, folded into the run's status. */
  function Finish(s: Status, i: nat, r: RunResult): Status {
    Status(s.phase, s.steps[i := WorkerStep(r.phase, r.message)], AddCounts(s.counts, r.counts),
           s.artifacts + Prefixed(i, r.artifacts))
  }

  // ----- One worker, as one reconcile sees it -----------------------------------------

  datatype Creation = Created | Rejected | CreateFails

  datatype View = Ended(result: RunResult) | ResultUnreadable | PodRunning | NothingYet

  /** What the API server itself says of a Job that the cache does not show, if it is asked and answers. */
  datatype LiveRead = Present | Absent | ReadFails | NoReader

  /** What the cache shows of a worker's Job. */
  datatype Sighting = Found(view: View) | NotFound(live: LiveRead, creation: Creation) | Unreadable

  /** finished counts the worker as done, job asks for its Job's deletion later. */
  datatype Checked = Checked(status: Status, finished: bool, job: bool, created: bool) | CheckFails

  function Check(s: Status, i: nat, seen: Sighting): Checked {
    if s.Done(i) then Checked(s, true, false, false)
    else match seen
      case Unreadable => CheckFails
      case NotFound(live, creation) =>
        if s.Step(i).phase != Unset then
          if live == Present then Checked(s, false, false, false)
          else Checked(Finish(s, i, ORPHANED), true, false, false)
        else (match creation
              case Created => Checked(s.(steps := s.steps[i := WorkerStep(Queued, Reported(""))]), false, false, true)
              case Rejected => Checked(Finish(s, i, REJECTED), false, false, false)
              case CreateFails => CheckFails)
      case Found(view) =>
        (match view
         case Ended(result) => Checked(Finish(s, i, result), true, true, false)
         case ResultUnreadable => CheckFails
         case PodRunning => Checked(s.(steps := s.steps[i := s.Step(i).(phase := Running)]), false, false, false)
         case NothingYet => Checked(s, false, false, false))
  }

  /** Any error makes the run an error, else any failure or abort a failure. */
  function Aggregate(s: Status, n: nat): Phase {
    if exists i :: 0 <= i < n && s.Step(i).phase == Error then Error
    else if exists i :: 0 <= i < n && s.Step(i).phase in {Failed, Aborted} then Failed
    else Passed
  }

  /** What a pass over n workers writes: the aggregate once all of them have finished. */
  function Outcome(s: Status, n: nat, finished: bool): Status {
    s.(phase := if finished then Aggregate(s, n) else Running)
  }

  /** A pass over the first k workers: the status, whether all are finished, and the Jobs to delete. */
  function CheckAll(s: Status, seen: seq<Sighting>, k: nat): Option<(Status, bool, seq<nat>)>
    requires k <= |seen|
  {
    if k == 0 then Some((s, true, []))
    else
      var before := CheckAll(s, seen, k - 1);
      if before.None? then None
      else
        match Check(before.value.0, k - 1, seen[k - 1])
        case CheckFails => None
        case Checked(s', finished, job, _) =>
          Some((s', before.value.1 && finished, if job then before.value.2 + [k - 1] else before.value.2))
  }

  // ----- The reconciler's copy of the run ---------------------------------------------

  class RunStatus {
    var phase: Phase
    var steps: map<nat, WorkerStep>
    var counts: Option<Counts>
    var artifacts: seq<string>

    function Value(): Status
      reads this
    {
      Status(phase, steps, counts, artifacts)
    }

    constructor (s: Status)
      ensures Value() == s
    {
      phase, steps, counts, artifacts := s.phase, s.steps, s.counts, s.artifacts;
    }

    method FinishWorker(i: nat, r: RunResult)
      modifies this
      ensures Value() == Finish(old(Value()), i, r)
    {
      steps := steps[i := WorkerStep(r.phase, r.message)];
      if r.counts.Some? {
        var sum := if counts.None? then Counts(0, 0, 0, 0) else counts.value;
        counts := Some(sum.Plus(r.counts.value));
      }
      ghost var before := artifacts;
      for k := 0 to |r.artifacts|
        invariant artifacts + Prefixed(i, r.artifacts[k..]) == before + Prefixed(i, r.artifacts)
        invariant unchanged(`phase)
        invariant steps == old(steps)[i := WorkerStep(r.phase, r.message)]
        invariant counts == AddCounts(old(counts), r.counts)
      {
        ConcatAssoc(artifacts, [ArtifactPath(i, r.artifacts[k])], Prefixed(i, r.artifacts[k + 1..]));
        assert r.artifacts[k..][1..] == r.artifacts[k + 1..];
        artifacts := artifacts + [ArtifactPath(i, r.artifacts[k])];
      }
      ConcatEmpty(artifacts);
    }

    /** Whether worker i has finished and whether its Job is to be deleted; None is an error to retry. */
    method ReconcileWorker(i: nat, seen: Sighting) returns (out: Option<(bool, bool)>)
      modifies this
      ensures match Check(old(Value()), i, seen)
              case CheckFails => out == None && Value() == old(Value())
              case Checked(s, finished, job, _) => out == Some((finished, job)) && Value() == s
    {
      var step := if i in steps then steps[i] else FRESH;
      if IsTerminal(step.phase) {
        return Some((true, false));
      }
      match seen {
        case Unreadable => return None;
        case NotFound(live, creation) =>
          if step.phase != Unset {
            if live == Present {
              return Some((false, false));
            }
            FinishWorker(i, ORPHANED);
            return Some((true, false));
          }
          match creation {
            case Created =>
              steps := steps[i := WorkerStep(Queued, Reported(""))];
              return Some((false, false));
            case Rejected =>
              FinishWorker(i, REJECTED);
              return Some((false, false));
            case CreateFails => return None;
          }
        case Found(view) =>
          match view {
            case Ended(result) =>
              FinishWorker(i, result);
              return Some((true, true));
            case ResultUnreadable => return None;
            case PodRunning =>
              steps := steps[i := step.(phase := Running)];
              return Some((false, false));
            case NothingYet => return Some((false, false));
          }
      }
    }

    method AggregateWorkers(n: nat) returns (p: Phase)
      ensures p == Aggregate(Value(), n)
      ensures p == Error <==> exists i :: 0 <= i < n && i in steps && steps[i].phase == Error
      ensures p == Failed <==>
              && (forall i :: 0 <= i < n && i in steps ==> steps[i].phase != Error)
              && exists i :: 0 <= i < n && i in steps && (steps[i].phase == Failed || steps[i].phase == Aborted)
      ensures p in {Error, Failed, Passed}
    {
      AggregateMeaning(Value(), n);
      var errs, fails := 0, 0;
      for i := 0 to n
        invariant errs > 0 <==> exists k :: 0 <= k < i && Value().Step(k).phase == Error
        invariant fails > 0 <==> exists k :: 0 <= k < i && Value().Step(k).phase in {Failed, Aborted}
      {
        var q := Value().Step(i).phase;
        if q == Error {
          errs := errs + 1;
        } else if q == Failed || q == Aborted {
          fails := fails + 1;
        }
      }
      return if errs > 0 then Error else if fails > 0 then Failed else Passed;
    }

    /**
     One pass: every worker looked at, the status written if it changed, and only then, if
     the write was accepted, the Jobs of the workers that finished in this pass deleted.
     */
    method ReconcileParallel(seen: seq<Sighting>, writeAccepted: bool)
      returns (written: Option<Status>, deleted: seq<nat>)
      modifies this
      ensures match CheckAll(old(Value()), seen, |seen|)
              case None => written == None && deleted == []
              case Some((s, finished, jobs)) =>
                var out := Outcome(s, |seen|, finished);
                if !finished && out == old(Value()) then written == None && deleted == jobs
                else if writeAccepted then written == Some(out) && deleted == jobs
                else written == None && deleted == []
    {
      var before := Value();
      var done := 0;
      var finishedJobs := [];
      for i := 0 to |seen|
        invariant done <= i
        invariant CheckAll(before, seen, i) == Some((Value(), done == i, finishedJobs))
      {
        var out := ReconcileWorker(i, seen[i]);
        if out.None? {
          CheckAllFails(before, seen, i + 1);
          return None, [];
        }
        if out.value.0 {
          done := done + 1;
        }
        if out.value.1 {
          finishedJobs := finishedJobs + [i];
        }
      }
      if phase != Running {
        phase := Running;
      }
      if done < |seen| {
        if Value() == before {
          return None, finishedJobs;
        }
      } else {
        phase := AggregateWorkers(|seen|);
        AggregateIgnoresPhase(Value(), |seen|);
      }
      if !writeAccepted {
        finishedJobs := [];
        return None, finishedJobs;
      }
      return Some(Value()), finishedJobs;
    }
  }

  /** Once a check fails, so does the pass. */
  lemma {:induction false} CheckAllFails(s: Status, seen: seq<Sighting>, k: nat)
    requires k <= |seen| && CheckAll(s, seen, k) == None
    ensures CheckAll(s, seen, |seen|) == None
    decreases |seen| - k
  {
    if k < |seen| {
      CheckAllFails(s, seen, k + 1);
    }
  }

  /** An error of any worker makes the run an error, else a failure or abort of any a failure. */
  lemma AggregateMeaning(s: Status, n: nat)
    ensures Aggregate(s, n) == Error <==> exists i :: 0 <= i < n && i in s.steps && s.steps[i].phase == Error
    ensures Aggregate(s, n) == Failed <==>
            && (forall i :: 0 <= i < n && i in s.steps ==> s.steps[i].phase != Error)
            && exists i :: 0 <= i < n && i in s.steps && (s.steps[i].phase == Failed || s.steps[i].phase == Aborted)
    ensures Aggregate(s, n) in {Error, Failed, Passed}
  {
    assert forall i: nat {:trigger s.Step(i)} {:trigger s.steps[i]} :: s.Step(i).phase != Unset ==> i in s.steps;
    assert forall i: nat {:trigger s.Step(i)} {:trigger s.steps[i]} :: i in s.steps ==> s.Step(i) == s.steps[i];
  }

  lemma AggregateIgnoresPhase(s: Status, n: nat)
    ensures forall p: Phase :: Aggregate(s.(phase := p), n) == Aggregate(s, n)
  {
    forall p: Phase ensures Aggregate(s.(phase := p), n) == Aggregate(s, n) {
      assert forall i: nat :: s.(phase := p).Step(i) == s.Step(i);
    }
  }
}
