/**
 A parallel run under stale reads, lost writes, crashes and Jobs deleted by others: every
 worker is accounted for exactly once, and a Job is deleted only after its verdict is safe.
 */
module ParallelProtocol {
  import opened Bytes
  import opened Phases
  import opened Names
  import opened ParallelRuns

  // ----- What the run's totals should be ----------------------------------------------

  type Verdicts = map<nat, RunResult>

  /** The test counts of the workers below n that have a verdict. */
  function SumCounts(v: Verdicts, n: nat): Option<Counts> {
    if n == 0 then None else AddCounts(SumCounts(v, n - 1), if n - 1 in v then v[n - 1].counts else None)
  }

  /** Their artifacts, each under its worker's prefix. */
  function SumArtifacts(v: Verdicts, n: nat): multiset<string> {
    if n == 0 then multiset{}
    else SumArtifacts(v, n - 1) + if n - 1 in v then multiset(Prefixed(n - 1, v[n - 1].artifacts)) else multiset{}
  }

  lemma AddCountsMoves(a: Option<Counts>, b: Option<Counts>, c: Option<Counts>)
    ensures AddCounts(AddCounts(a, b), c) == AddCounts(AddCounts(a, c), b)
  {}

  lemma {:induction false} SumsFrame(v: Verdicts, i: nat, r: RunResult, n: nat)
    requires n <= i
    ensures SumCounts(v[i := r], n) == SumCounts(v, n) && SumArtifacts(v[i := r], n) == SumArtifacts(v, n)
  {
    if n > 0 {
      SumsFrame(v, i, r, n - 1);
    }
  }

  /** A further verdict adds its counts and artifacts, once. */
  lemma {:induction false} SumsInsert(v: Verdicts, i: nat, r: RunResult, n: nat)
    requires i < n && i !in v
    ensures SumCounts(v[i := r], n) == AddCounts(SumCounts(v, n), r.counts)
    ensures SumArtifacts(v[i := r], n) == SumArtifacts(v, n) + multiset(Prefixed(i, r.artifacts))
  {
    if i == n - 1 {
      SumsFrame(v, i, r, n - 1);
    } else {
      SumsInsert(v, i, r, n - 1);
      AddCountsMoves(SumCounts(v, n - 1), r.counts, if n - 1 in v then v[n - 1].counts else None);
    }
  }

  // ----- State ------------------------------------------------------------------------

  /** A stored version of the run: its status, whether abort was asked for, and the verdicts behind it. */
  datatype Version = Version(status: Status, abort: bool, verdicts: Verdicts)

  /**
   A reconcile at work on a copy of version base: finished while every worker looked at so
   far is, and jobs are those it will delete.
   */
  datatype Pass = Pass(base: nat, local: Version, next: nat, finished: bool, jobs: seq<nat>, committed: bool)

  /**
   history holds every stored version, the last being current. jobs are the worker Jobs
   that exist; created, ended, byOthers and byController those that ever were created, came
   to an end, or were deleted, by somebody else or by the controller. Of the workers in blind
   a live read has not told whether their Job was there.
   */
  datatype World = World(history: seq<Version>, jobs: set<nat>, created: set<nat>, ended: set<nat>,
                         byOthers: set<nat>, byController: set<nat>, blind: set<nat>, pass: Option<Pass>)
  {
    function Current(): Version
      requires history != []
    {
      history[|history| - 1]
    }
  }

  datatype Event =
    | Begin(base: nat) | CheckNext(seen: Sighting) | Commit | DeleteNext | SkipDelete | Drop
    | JobEnds(i: nat) | DeletedByOthers(i: nat) | OtherWrite
    | AbortAsked | AbortDeletes(i: nat) | AbortEnds

  const START := World([Version(Status(Queued, map[], None, []), false, map[])], {}, {}, {}, {}, {}, {}, None)

  // ----- Steps ------------------------------------------------------------------------

  /**
   The cache shows Jobs that existed and ends that happened, and no reported result is the
   controller's own guess; what a live read tells is true, if it tells anything.
   */
  ghost predicate Plausible(w: World, i: nat, seen: Sighting) {
    match seen
    case Unreadable => true
    case NotFound(live, _) => (live == Present ==> i in w.jobs) && (live == Absent ==> i !in w.jobs)
    case Found(view) => i in w.created && (view.Ended? ==> i in w.ended && IsTerminal(view.result.phase) && view.result.message != OrphanJobMissing)
  }

  /** The cache does not show the Job, and no live read says whether it is there. */
  predicate TellsNothing(seen: Sighting) {
    seen.NotFound? && seen.live in {ReadFails, NoReader}
  }

  /** The verdict a check recorded, if it recorded one. */
  function VerdictOf(s: Status, i: nat, seen: Sighting): Option<RunResult> {
    if s.Done(i) then None
    else match seen
      case Found(Ended(r)) => Some(r)
      case NotFound(live, creation) =>
        if s.Step(i).phase != Unset then (if live == Present then None else Some(ORPHANED))
        else if creation.Rejected? then Some(REJECTED) else None
      case _ => None
  }

  function CheckedVersion(v: Version, i: nat, seen: Sighting, s': Status): Version {
    var r := VerdictOf(v.status, i, seen);
    Version(s', v.abort, if r.Some? then v.verdicts[i := r.value] else v.verdicts)
  }

  ghost predicate Next(n: nat, w: World, e: Event, w': World)
    requires w.history != []
  {
    match e
    case Begin(base) =>
      && w.pass.None? && base < |w.history|
      && !IsTerminal(w.history[base].status.phase) && !w.history[base].abort
      && w' == w.(pass := Some(Pass(base, w.history[base], 0, true, [], false)))
    case CheckNext(seen) =>
      && w.pass.Some? && !w.pass.value.committed && w.pass.value.next < n
      && var p := w.pass.value;
      && Plausible(w, p.next, seen)
      && (match Check(p.local.status, p.next, seen)
          case CheckFails => w' == w.(pass := None)
          case Checked(s, finished, job, created) =>
            w' == w.(jobs := if created then w.jobs + {p.next} else w.jobs,
                     created := if created then w.created + {p.next} else w.created,
                     blind := if TellsNothing(seen) then w.blind + {p.next} else w.blind,
                     pass := Some(Pass(p.base, CheckedVersion(p.local, p.next, seen, s), p.next + 1,
                                       p.finished && finished,
                                       if job then p.jobs + [p.next] else p.jobs, false))))
    case Commit =>
      && w.pass.Some? && !w.pass.value.committed && w.pass.value.next == n && w.pass.value.base < |w.history|
      && var p := w.pass.value;
      && var out := p.local.(status := Outcome(p.local.status, n, p.finished));
      && if out.status == w.history[p.base].status then
           w' == w.(pass := Some(p.(committed := true)))
         else
           && p.base == |w.history| - 1
           && w' == w.(history := w.history + [out], pass := Some(p.(committed := true)))
    case DeleteNext =>
      && w.pass.Some? && w.pass.value.committed && w.pass.value.jobs != []
      && var p := w.pass.value;
      && w' == w.(jobs := w.jobs - {p.jobs[0]}, byController := w.byController + {p.jobs[0]},
                  pass := Some(p.(jobs := p.jobs[1..])))
    case SkipDelete =>
      && w.pass.Some? && w.pass.value.committed && w.pass.value.jobs != []
      && w' == w.(pass := Some(w.pass.value.(jobs := w.pass.value.jobs[1..])))
    case Drop => w.pass.Some? && w' == w.(pass := None)  // a conflict, an error, a crash, or the end of the pass
    case JobEnds(i) => i in w.jobs && w' == w.(ended := w.ended + {i})
    case DeletedByOthers(i) => i in w.jobs && w' == w.(jobs := w.jobs - {i}, byOthers := w.byOthers + {i})
    case OtherWrite => w' == w.(history := w.history + [w.Current()])
    case AbortAsked => w' == w.(history := w.history + [w.Current().(abort := true)])
    case AbortDeletes(i) =>
      w.Current().abort && w' == w.(jobs := w.jobs - {i}, byController := w.byController + {i})
    case AbortEnds =>
      && w.Current().abort && !IsTerminal(w.Current().status.phase)
      && w' == w.(history := w.history + [w.Current().(status := w.Current().status.(phase := Aborted))])
  }

  // ----- Invariant --------------------------------------------------------------------

  /** The status says exactly what the verdicts say, and adds them up, each once. */
  ghost predicate Accounts(v: Version, n: nat) {
    && (forall i: nat {:trigger i in v.verdicts} :: i in v.verdicts ==> i < n)
    && (forall i: nat {:trigger v.status.Done(i)} {:trigger i in v.verdicts} :: v.status.Done(i) <==> i in v.verdicts)
    && (forall i: nat {:trigger v.verdicts[i]} :: i in v.verdicts ==>
          v.status.Step(i) == WorkerStep(v.verdicts[i].phase, v.verdicts[i].message))
    && v.status.counts == SumCounts(v.verdicts, n)
    && multiset(v.status.artifacts) == SumArtifacts(v.verdicts, n)
  }

  /** Every verdict of a stands in b. */
  ghost predicate KeptIn(a: Version, b: Version) {
    && (forall i: nat {:trigger i in a.verdicts} :: i in a.verdicts ==> i in b.verdicts && b.verdicts[i] == a.verdicts[i])
    && (a.abort ==> b.abort)
  }

  ghost predicate AllDone(s: Status, n: nat) {
    forall i {:trigger s.Done(i)} :: 0 <= i < n ==> s.Done(i)
  }

  /** A finished run that nobody aborted carries the aggregate of all its workers. */
  ghost predicate EndsRight(v: Version, n: nat) {
    IsTerminal(v.status.phase) && !v.abort ==>
      && AllDone(v.status, n)
      && v.status.phase == Aggregate(v.status, n)
  }

  /** A worker whose step shows signs of life had a Job. */
  ghost predicate HadJobs(v: Version, created: set<nat>) {
    forall i: nat {:trigger v.status.Step(i)} ::
      v.status.Step(i).phase != Unset && !v.status.Done(i) ==> i in created
  }

  ghost predicate Good(v: Version, n: nat, created: set<nat>) {
    Accounts(v, n) && HadJobs(v, created)
  }

  ghost predicate OrphansExplained(v: Version, gone: set<nat>) {
    forall i: nat {:trigger v.verdicts[i]} :: i in v.verdicts && v.verdicts[i].message == OrphanJobMissing ==> i in gone
  }

  /** The workers that can be taken for orphans: others deleted their Job, or no live read told of it. */
  function Gone(w: World): set<nat> {
    w.byOthers + w.blind
  }

  /** The worker has a verdict that is not the controller's guess. */
  predicate HasResult(v: Version, i: nat) {
    i in v.verdicts && v.verdicts[i].message != OrphanJobMissing
  }

  ghost predicate HistoryOk(n: nat, history: seq<Version>, created: set<nat>, gone: set<nat>) {
    && history != []
    && (forall k {:trigger Good(history[k], n, created)} :: 0 <= k < |history| ==> Good(history[k], n, created) && EndsRight(history[k], n))
    && (forall j, k {:trigger KeptIn(history[j], history[k])} :: 0 <= j <= k < |history| ==> KeptIn(history[j], history[k]))
    && OrphansExplained(history[|history| - 1], gone)
  }

  ghost predicate HistoryInv(n: nat, w: World) {
    HistoryOk(n, w.history, w.created, Gone(w))
  }

  /** A Job that is gone was deleted by somebody, and by the controller only after its verdict was stored. */
  ghost predicate JobsOk(now: Version, jobs: set<nat>, created: set<nat>, byOthers: set<nat>, byController: set<nat>) {
    && (forall i: nat {:trigger i in created} :: i in created ==> i in jobs || i in byOthers || i in byController)
    && (forall i: nat {:trigger i in byController} :: i in byController ==> HasResult(now, i) || now.abort)
  }

  ghost predicate JobsInv(w: World)
    requires w.history != []
  {
    JobsOk(w.Current(), w.jobs, w.created, w.byOthers, w.byController)
  }

  /** The Jobs a pass will delete have their results in the version it holds, or once written in the current one. */
  ghost predicate ToDelete(jobs: seq<nat>, committed: bool, now: Version, local: Version, base: Version) {
    forall j: nat {:trigger j in jobs} :: j in jobs ==>
      if committed then HasResult(now, j) else HasResult(local, j) && j !in base.verdicts
  }

  ghost predicate PassOk(n: nat, base: Version, now: Version, upToDate: bool, created: set<nat>, gone: set<nat>, p: Pass) {
    && p.next <= n
    && !base.abort && !p.local.abort && !IsTerminal(base.status.phase)
    && Good(p.local, n, created)
    && KeptIn(base, p.local)
    && (p.finished ==> AllDone(p.local.status, p.next))
    && (!p.committed && upToDate ==> OrphansExplained(p.local, gone))
    && ToDelete(p.jobs, p.committed, now, p.local, base)
  }

  ghost predicate PassInv(n: nat, w: World, p: Pass)
    requires w.history != []
  {
    p.base < |w.history| && PassOk(n, w.history[p.base], w.Current(), p.base == |w.history| - 1, w.created, Gone(w), p)
  }

  ghost predicate Inv(n: nat, w: World) {
    && HistoryInv(n, w)
    && JobsInv(w)
    && (w.pass.Some? ==> PassInv(n, w, w.pass.value))
  }

  // ----- One worker checked -----------------------------------------------------------

  /** Folding in a verdict that was not there keeps the accounts. */
  lemma FinishAccounts(v: Version, i: nat, r: RunResult, n: nat)
    requires Accounts(v, n) && i < n && i !in v.verdicts && IsTerminal(r.phase)
    ensures Accounts(Version(Finish(v.status, i, r), v.abort, v.verdicts[i := r]), n)
  {
    SumsInsert(v.verdicts, i, r, n);
    var v' := Version(Finish(v.status, i, r), v.abort, v.verdicts[i := r]);
    forall j: nat ensures v'.status.Done(j) <==> j in v'.verdicts {
      assert v.status.Done(j) <==> j in v.verdicts;
      assert j != i ==> v'.status.Step(j) == v.status.Step(j);
    }
    forall j: nat | j in v'.verdicts
      ensures v'.status.Step(j) == WorkerStep(v'.verdicts[j].phase, v'.verdicts[j].message)
    {
      assert j != i ==> v.verdicts[j] == v'.verdicts[j] && v'.status.Step(j) == v.status.Step(j);
    }
  }

  /** Marking a worker as queued or running touches no verdict. */
  lemma MarkAccounts(v: Version, i: nat, step: WorkerStep, n: nat)
    requires Accounts(v, n) && !v.status.Done(i) && !IsTerminal(step.phase)
    ensures Accounts(v.(status := v.status.(steps := v.status.steps[i := step])), n)
  {
    var s' := v.status.(steps := v.status.steps[i := step]);
    forall j: nat ensures s'.Done(j) <==> v.status.Done(j) {
      assert j != i ==> s'.Step(j) == v.status.Step(j);
    }
    forall j: nat | j in v.verdicts ensures s'.Step(j) == WorkerStep(v.verdicts[j].phase, v.verdicts[j].message) {
      assert v.verdicts[j] == v.verdicts[j] && v.status.Done(j);
    }
  }

  /** A check leaves the accounts right, and no verdict it found behind. */
  lemma CheckAccounts(w: World, v: Version, i: nat, seen: Sighting, n: nat)
    requires Accounts(v, n) && i < n && Plausible(w, i, seen)
    requires Check(v.status, i, seen).Checked?
    ensures var c := Check(v.status, i, seen);
            var v' := CheckedVersion(v, i, seen, c.status);
            && Accounts(v', n) && KeptIn(v, v') && v'.abort == v.abort
            && (c.job ==> HasResult(v', i) && i !in v.verdicts)
            && (c.finished ==> c.status.Done(i))
            && (forall j: nat {:trigger j in v'.verdicts} :: j in v'.verdicts && j != i ==> j in v.verdicts)
            && forall j: nat {:trigger v'.status.Step(j)} :: j != i ==> v'.status.Step(j) == v.status.Step(j)
  {
    assert v.status.Done(i) <==> i in v.verdicts;
    var r := VerdictOf(v.status, i, seen);
    if r.Some? {
      FinishAccounts(v, i, r.value, n);
    } else if !v.status.Done(i) {
      match seen
      case NotFound(_, Created) =>
        if v.status.Step(i).phase == Unset {
          MarkAccounts(v, i, WorkerStep(Queued, Reported("")), n);
        }
      case Found(PodRunning) => MarkAccounts(v, i, v.status.Step(i).(phase := Running), n);
      case _ =>
    }
  }

  /** A worker that shows signs of life after a check had a Job before it or has one since. */
  lemma CheckHadJobs(w: World, v: Version, i: nat, seen: Sighting, n: nat)
    requires Accounts(v, n) && HadJobs(v, w.created) && i < n && Plausible(w, i, seen)
    requires Check(v.status, i, seen).Checked?
    ensures var c := Check(v.status, i, seen);
            HadJobs(CheckedVersion(v, i, seen, c.status), if c.created then w.created + {i} else w.created)
  {
    CheckAccounts(w, v, i, seen, n);
    var c := Check(v.status, i, seen);
    var v' := CheckedVersion(v, i, seen, c.status);
    forall j: nat | v'.status.Step(j).phase != Unset && !v'.status.Done(j)
      ensures j in (if c.created then w.created + {i} else w.created)
    {
      assert j != i ==> v'.status.Step(j) == v.status.Step(j);
      assert v.status.Step(i) == v.status.Step(i);
    }
  }

  /** A Job that is not there, of a worker without a verdict, was deleted by others. */
  lemma MissingWasDeleted(n: nat, w: World, p: Pass)
    requires HistoryInv(n, w) && JobsInv(w) && PassInv(n, w, p) && !p.committed
    requires p.next < n && p.base == |w.history| - 1 && p.next !in w.jobs
    requires p.local.status.Step(p.next).phase != Unset && !p.local.status.Done(p.next)
    ensures p.next in w.byOthers
  {
    var i := p.next;
    assert i in w.created;
    assert i !in p.local.verdicts;
    assert i !in w.history[p.base].verdicts;
    assert i !in w.byController;
  }

  /** A worker that is given up as an orphan: others deleted its Job, or no live read told of it. */
  lemma OrphanWasDeleted(n: nat, w: World, p: Pass, seen: Sighting)
    requires HistoryInv(n, w) && JobsInv(w) && PassInv(n, w, p) && !p.committed
    requires p.next < n && Plausible(w, p.next, seen) && p.base == |w.history| - 1
    requires VerdictOf(p.local.status, p.next, seen) == Some(ORPHANED)
    requires seen.NotFound?
    ensures p.next in w.byOthers || TellsNothing(seen)
  {
    if !TellsNothing(seen) {
      MissingWasDeleted(n, w, p);
    }
  }

  /**
   With a status that is up to date, a worker at work whose Job the cache does not show is taken for an
   orphan exactly when the Job is gone, in which case others deleted it, or the live read does not tell.
   */
  lemma OrphanExactly(n: nat, w: World, p: Pass, seen: Sighting)
    requires HistoryInv(n, w) && JobsInv(w) && PassInv(n, w, p) && !p.committed
    requires p.next < n && Plausible(w, p.next, seen) && p.base == |w.history| - 1 && seen.NotFound?
    requires p.local.status.Step(p.next).phase != Unset && !p.local.status.Done(p.next)
    ensures VerdictOf(p.local.status, p.next, seen) == Some(ORPHANED) <==> p.next !in w.jobs || TellsNothing(seen)
    ensures p.next !in w.jobs ==> p.next in w.byOthers
  {
    if p.next !in w.jobs {
      MissingWasDeleted(n, w, p);
    }
  }

  // ----- Every step keeps the invariant -----------------------------------------------

  /** What is stored is as good when more Jobs were created, deleted by others, or unseen. */
  lemma HistoryFrame(n: nat, history: seq<Version>, created: set<nat>, gone: set<nat>, created': set<nat>, gone': set<nat>)
    requires HistoryOk(n, history, created, gone) && created <= created' && gone <= gone'
    ensures HistoryOk(n, history, created', gone')
  {
    forall k | 0 <= k < |history| ensures Good(history[k], n, created') && EndsRight(history[k], n) {
      assert Good(history[k], n, created);
    }
  }

  lemma JobCreated(now: Version, jobs: set<nat>, created: set<nat>, byOthers: set<nat>, byController: set<nat>, i: nat)
    requires JobsOk(now, jobs, created, byOthers, byController)
    ensures JobsOk(now, jobs + {i}, created + {i}, byOthers, byController)
  {}

  lemma OneMoreToDelete(jobs: seq<nat>, now: Version, local: Version, base: Version, v: Version, i: nat)
    requires ToDelete(jobs, false, now, local, base) && KeptIn(local, v)
    requires HasResult(v, i) && i !in base.verdicts
    ensures ToDelete(jobs, false, now, v, base) && ToDelete(jobs + [i], false, now, v, base)
  {}

  lemma StillToDelete(jobs: seq<nat>, now: Version, local: Version, base: Version, v: Version)
    requires ToDelete(jobs, false, now, local, base) && KeptIn(local, v)
    ensures ToDelete(jobs, false, now, v, base)
  {}

  lemma KeptInTransitive(a: Version, b: Version, c: Version)
    requires KeptIn(a, b) && KeptIn(b, c)
    ensures KeptIn(a, c)
  {}

  /** A pass goes on with a version that is right and keeps the verdicts it had. */
  lemma PassGoesOn(n: nat, base: Version, now: Version, upToDate: bool, created: set<nat>, gone: set<nat>, p: Pass,
                   v: Version, finished: bool, job: bool, created': set<nat>, gone': set<nat>)
    requires PassOk(n, base, now, upToDate, created, gone, p) && !p.committed && p.next < n
    requires Good(v, n, created') && KeptIn(p.local, v) && !v.abort
    requires finished ==> AllDone(v.status, p.next + 1)
    requires upToDate ==> OrphansExplained(v, gone')
    requires job ==> HasResult(v, p.next) && p.next !in p.local.verdicts
    ensures PassOk(n, base, now, upToDate, created', gone',
                   Pass(p.base, v, p.next + 1, finished, if job then p.jobs + [p.next] else p.jobs, false))
  {
    KeptInTransitive(base, p.local, v);
    StillToDelete(p.jobs, now, p.local, base, v);
    if job {
      OneMoreToDelete(p.jobs, now, p.local, base, v, p.next);
    }
  }

  /** What a check comes to, however it came to it. */
  ghost predicate Comes(n: nat, w: World, p: Pass, seen: Sighting, v: Version, c: Checked)
    requires w.history != [] && c.Checked?
  {
    && Good(v, n, if c.created then w.created + {p.next} else w.created) && KeptIn(p.local, v) && !v.abort
    && (p.finished && c.finished ==> AllDone(v.status, p.next + 1))
    && (p.base == |w.history| - 1 ==> OrphansExplained(v, Gone(w) + if TellsNothing(seen) then {p.next} else {}))
    && (c.job ==> HasResult(v, p.next) && p.next !in p.local.verdicts)
  }

  lemma CheckComes(n: nat, w: World, p: Pass, seen: Sighting)
    requires HistoryInv(n, w) && JobsInv(w) && PassInv(n, w, p) && !p.committed && p.next < n && Plausible(w, p.next, seen)
    requires Check(p.local.status, p.next, seen).Checked?
    ensures var c := Check(p.local.status, p.next, seen); Comes(n, w, p, seen, CheckedVersion(p.local, p.next, seen, c.status), c)
  {
    CheckAccounts(w, p.local, p.next, seen, n);
    CheckHadJobs(w, p.local, p.next, seen, n);
    CheckFinished(n, w, p, seen);
    if p.base == |w.history| - 1 {
      CheckedOrphans(n, w, p, seen);
    }
  }

  lemma CheckedKeeps(n: nat, w: World, p: Pass, seen: Sighting, v: Version, c: Checked, w': World)
    requires HistoryInv(n, w) && JobsInv(w) && PassInv(n, w, p) && !p.committed && p.next < n && c.Checked?
    requires Comes(n, w, p, seen, v, c)
    requires w' == w.(jobs := if c.created then w.jobs + {p.next} else w.jobs,
                      created := if c.created then w.created + {p.next} else w.created,
                      blind := if TellsNothing(seen) then w.blind + {p.next} else w.blind,
                      pass := Some(Pass(p.base, v, p.next + 1, p.finished && c.finished,
                                        if c.job then p.jobs + [p.next] else p.jobs, false)))
    ensures Inv(n, w')
  {
    assert Gone(w') == Gone(w) + if TellsNothing(seen) then {p.next} else {};
    HistoryFrame(n, w.history, w.created, Gone(w), w'.created, Gone(w'));
    if c.created {
      JobCreated(w.Current(), w.jobs, w.created, w.byOthers, w.byController, p.next);
    }
    PassGoesOn(n, w.history[p.base], w.Current(), p.base == |w.history| - 1, w.created, Gone(w), p, v,
               p.finished && c.finished, c.job, w'.created, Gone(w'));
  }

  lemma CheckNextKeeps(n: nat, w: World, seen: Sighting, w': World)
    requires Inv(n, w) && Next(n, w, CheckNext(seen), w')
    ensures Inv(n, w')
  {
    if w'.pass.Some? {
      var p := w.pass.value;
      var c := Check(p.local.status, p.next, seen);
      CheckComes(n, w, p, seen);
      CheckedKeeps(n, w, p, seen, CheckedVersion(p.local, p.next, seen, c.status), c, w');
    }
  }

  lemma CheckFinished(n: nat, w: World, p: Pass, seen: Sighting)
    requires w.history != [] && PassInv(n, w, p) && p.next < n && Plausible(w, p.next, seen)
    requires Check(p.local.status, p.next, seen).Checked?
    ensures var c := Check(p.local.status, p.next, seen);
            p.finished && c.finished ==> AllDone(c.status, p.next + 1)
  {
    CheckAccounts(w, p.local, p.next, seen, n);
    var c := Check(p.local.status, p.next, seen);
    if p.finished && c.finished {
      forall i | 0 <= i < p.next + 1 ensures c.status.Done(i) {
        assert i < p.next ==> p.local.status.Done(i) && c.status.Step(i) == p.local.status.Step(i);
      }
    }
  }

  lemma CheckedOrphans(n: nat, w: World, p: Pass, seen: Sighting)
    requires HistoryInv(n, w) && JobsInv(w) && PassInv(n, w, p) && !p.committed
    requires p.next < n && Plausible(w, p.next, seen) && p.base == |w.history| - 1
    requires Check(p.local.status, p.next, seen).Checked?
    ensures var c := Check(p.local.status, p.next, seen);
            OrphansExplained(CheckedVersion(p.local, p.next, seen, c.status), Gone(w) + if TellsNothing(seen) then {p.next} else {})
  {
    var v := CheckedVersion(p.local, p.next, seen, Check(p.local.status, p.next, seen).status).verdicts;
    forall j: nat | j in v && v[j].message == OrphanJobMissing ensures j in Gone(w) + if TellsNothing(seen) then {p.next} else {} {
      if j in p.local.verdicts {
        assert j == p.next ==> p.local.status.Done(j);
        assert p.local.verdicts[j] == v[j];
      } else {
        OrphanOnlyHere(n, w, p, seen, j);
      }
    }
  }

  lemma OrphanOnlyHere(n: nat, w: World, p: Pass, seen: Sighting, j: nat)
    requires HistoryInv(n, w) && JobsInv(w) && PassInv(n, w, p) && !p.committed
    requires p.next < n && Plausible(w, p.next, seen) && p.base == |w.history| - 1
    requires Check(p.local.status, p.next, seen).Checked?
    requires j !in p.local.verdicts
    requires var c := Check(p.local.status, p.next, seen);
             var v := CheckedVersion(p.local, p.next, seen, c.status).verdicts;
             j in v && v[j].message == OrphanJobMissing
    ensures j in Gone(w) + if TellsNothing(seen) then {p.next} else {}
  {
    assert j == p.next;
    if seen.NotFound? {
      OrphanWasDeleted(n, w, p, seen);
    }
  }

  /** A version that extends the current one can be stored. */
  lemma StoreVersion(n: nat, history: seq<Version>, created: set<nat>, gone: set<nat>, v: Version)
    requires HistoryOk(n, history, created, gone)
    requires Good(v, n, created) && EndsRight(v, n) && KeptIn(history[|history| - 1], v) && OrphansExplained(v, gone)
    ensures HistoryOk(n, history + [v], created, gone)
  {
    var all, last := history + [v], |history| - 1;
    forall k | 0 <= k < |all| ensures Good(all[k], n, created) && EndsRight(all[k], n) {
      assert k <= last ==> all[k] == history[k] && Good(history[k], n, created);
    }
    forall j, k | 0 <= j <= k < |all| ensures KeptIn(all[j], all[k]) {
      if k <= last {
        assert KeptIn(history[j], history[k]);
      } else if j <= last {
        assert KeptIn(history[j], history[last]);
        KeptInTransitive(history[j], history[last], v);
      }
    }
  }

  /** What the current version says of Jobs, a later one says too. */
  lemma JobsKept(now: Version, v: Version, jobs: set<nat>, created: set<nat>, byOthers: set<nat>, byController: set<nat>)
    requires JobsOk(now, jobs, created, byOthers, byController) && KeptIn(now, v)
    ensures JobsOk(v, jobs, created, byOthers, byController)
  {}

  /** Changing only the phase changes no account. */
  lemma PhaseAccounts(v: Version, phase: Phase, n: nat, created: set<nat>)
    requires Good(v, n, created)
    ensures Good(v.(status := v.status.(phase := phase)), n, created)
  {
    var s' := v.status.(phase := phase);
    forall i: nat ensures s'.Step(i) == v.status.Step(i) && s'.Done(i) == v.status.Done(i) {
      assert s'.Step(i) == v.status.Step(i);
    }
  }

  lemma OutcomeEndsRight(v: Version, n: nat, finished: bool)
    requires finished ==> AllDone(v.status, n)
    ensures EndsRight(v.(status := Outcome(v.status, n, finished)), n)
  {
    var s' := Outcome(v.status, n, finished);
    forall i: nat ensures s'.Step(i) == v.status.Step(i) && s'.Done(i) == v.status.Done(i) {
      assert s'.Step(i) == v.status.Step(i);
    }
    assert Aggregate(s', n) == Aggregate(v.status, n);
  }

  /** A pass in progress is unaffected by what others store. */
  lemma PassOutlivesWrite(n: nat, base: Version, now: Version, upToDate: bool, created: set<nat>, gone: set<nat>, p: Pass, v: Version)
    requires PassOk(n, base, now, upToDate, created, gone, p) && KeptIn(now, v)
    ensures PassOk(n, base, v, false, created, gone, p)
  {
    forall j: nat | j in p.jobs && p.committed ensures HasResult(v, j) {
      assert HasResult(now, j);
    }
  }

  lemma WriteStored(n: nat, w: World, v: Version, w': World)
    requires Inv(n, w) && w' == w.(history := w.history + [v])
    requires Good(v, n, w.created) && EndsRight(v, n) && KeptIn(w.Current(), v) && OrphansExplained(v, Gone(w))
    ensures Inv(n, w')
  {
    StoreVersion(n, w.history, w.created, Gone(w), v);
    JobsKept(w.Current(), v, w.jobs, w.created, w.byOthers, w.byController);
    assert w'.Current() == v;
    if w.pass.Some? {
      var p := w.pass.value;
      assert w'.history[p.base] == w.history[p.base];
      PassOutlivesWrite(n, w.history[p.base], w.Current(), p.base == |w.history| - 1, w.created, Gone(w), p, v);
    }
  }

  /** A pass that found nothing new has no Job to delete. */
  lemma NothingNew(n: nat, base: Version, now: Version, upToDate: bool, created: set<nat>, gone: set<nat>, p: Pass)
    requires PassOk(n, base, now, upToDate, created, gone, p) && !p.committed && Good(base, n, created)
    requires Outcome(p.local.status, n, p.finished) == base.status
    ensures PassOk(n, base, now, upToDate, created, gone, p.(committed := true))
  {
    forall j: nat ensures p.local.status.Done(j) ==> base.status.Done(j) {
      assert base.status.Step(j) == p.local.status.Step(j);
    }
    assert p.jobs != [] ==> p.jobs[0] in p.jobs;
  }

  /** Once what a pass holds is the current version, the Jobs it will delete have their results in it. */
  lemma NowCommitted(n: nat, base: Version, now: Version, upToDate: bool, created: set<nat>, gone: set<nat>, p: Pass, out: Version)
    requires PassOk(n, base, now, upToDate, created, gone, p) && !p.committed && out.verdicts == p.local.verdicts
    ensures PassOk(n, base, out, false, created, gone, p.(committed := true))
  {
    forall j: nat | j in p.jobs ensures HasResult(out, j) {
      assert HasResult(p.local, j);
    }
  }

  lemma OutcomeStored(n: nat, w: World, p: Pass, out: Version, w': World)
    requires HistoryInv(n, w) && JobsInv(w) && PassInv(n, w, p) && !p.committed && p.base == |w.history| - 1
    requires out == p.local.(status := Outcome(p.local.status, n, p.finished)) && p.next == n
    requires w' == w.(history := w.history + [out], pass := Some(p.(committed := true)))
    ensures Inv(n, w')
  {
    PhaseAccounts(p.local, out.status.phase, n, w.created);
    OutcomeEndsRight(p.local, n, p.finished);
    StoreVersion(n, w.history, w.created, Gone(w), out);
    JobsKept(w.Current(), out, w.jobs, w.created, w.byOthers, w.byController);
    assert w'.Current() == out && w'.history[p.base] == w.history[p.base];
    NowCommitted(n, w.history[p.base], w.Current(), true, w.created, Gone(w), p, out);
  }

  lemma CommitKeeps(n: nat, w: World, w': World)
    requires Inv(n, w) && Next(n, w, Commit, w')
    ensures Inv(n, w')
  {
    var p := w.pass.value;
    var out := p.local.(status := Outcome(p.local.status, n, p.finished));
    if out.status == w.history[p.base].status {
      assert Good(w.history[p.base], n, w.created);
      NothingNew(n, w.history[p.base], w.Current(), p.base == |w.history| - 1, w.created, Gone(w), p);
    } else {
      OutcomeStored(n, w, p, out, w');
    }
  }

  lemma WriteKeeps(n: nat, w: World, e: Event, w': World)
    requires Inv(n, w) && Next(n, w, e, w')
    requires e.OtherWrite? || e.AbortAsked? || e.AbortEnds?
    ensures Inv(n, w')
  {
    var now := w.history[|w.history| - 1];
    var v := w'.history[|w.history|];
    assert Good(now, n, w.created) && EndsRight(now, n);
    PhaseAccounts(now, v.status.phase, n, w.created);
    if e.AbortAsked? {
      AbortAccounts(now, n, w.created);
    }
    WriteStored(n, w, v, w');
  }

  lemma AbortAccounts(v: Version, n: nat, created: set<nat>)
    requires Good(v, n, created)
    ensures Good(v.(abort := true), n, created)
  {}

  lemma BeginKeeps(n: nat, w: World, base: nat, w': World)
    requires Inv(n, w) && Next(n, w, Begin(base), w')
    ensures Inv(n, w')
  {
    var v := w.history[base];
    assert Good(v, n, w.created) && KeptIn(w.history[base], w.history[base]);
    BeginsOk(n, v, w.Current(), base == |w.history| - 1, w.created, Gone(w), w'.pass.value);
  }

  lemma BeginsOk(n: nat, v: Version, now: Version, upToDate: bool, created: set<nat>, gone: set<nat>, p: Pass)
    requires Good(v, n, created) && KeptIn(v, v) && !v.abort && !IsTerminal(v.status.phase)
    requires upToDate ==> OrphansExplained(v, gone)
    requires p.local == v && p.next == 0 && p.jobs == [] && !p.committed
    ensures PassOk(n, v, now, upToDate, created, gone, p)
  {}

  /** A pass survives whatever others do to Jobs. */
  lemma PassFrame(n: nat, base: Version, now: Version, upToDate: bool, created: set<nat>, gone: set<nat>, p: Pass, gone': set<nat>)
    requires PassOk(n, base, now, upToDate, created, gone, p) && gone <= gone'
    ensures PassOk(n, base, now, upToDate, created, gone', p)
  {}

  lemma JobDeletedByOthers(now: Version, jobs: set<nat>, created: set<nat>, byOthers: set<nat>, byController: set<nat>, i: nat)
    requires JobsOk(now, jobs, created, byOthers, byController)
    ensures JobsOk(now, jobs - {i}, created, byOthers + {i}, byController)
  {}

  lemma JobDeletedHere(now: Version, jobs: set<nat>, created: set<nat>, byOthers: set<nat>, byController: set<nat>, i: nat)
    requires JobsOk(now, jobs, created, byOthers, byController) && (HasResult(now, i) || now.abort)
    ensures JobsOk(now, jobs - {i}, created, byOthers, byController + {i})
  {}

  lemma FewerToDelete(jobs: seq<nat>, committed: bool, now: Version, local: Version, base: Version)
    requires ToDelete(jobs, committed, now, local, base) && jobs != []
    ensures ToDelete(jobs[1..], committed, now, local, base)
    ensures committed ==> HasResult(now, jobs[0])
  {
    assert jobs[0] in jobs;
    assert forall j: nat {:trigger j in jobs[1..]} :: j in jobs[1..] ==> j in jobs;
  }

  lemma DeleteKeeps(n: nat, w: World, e: Event, w': World)
    requires Inv(n, w) && Next(n, w, e, w') && (e.DeleteNext? || e.SkipDelete?)
    ensures Inv(n, w')
  {
    var p := w.pass.value;
    FewerToDelete(p.jobs, true, w.Current(), p.local, w.history[p.base]);
    if e.DeleteNext? {
      JobDeletedHere(w.Current(), w.jobs, w.created, w.byOthers, w.byController, p.jobs[0]);
    }
  }

  /** Jobs come to an end, or are deleted, or the pass is dropped: nothing stored changes. */
  lemma OutsideKeeps(n: nat, w: World, e: Event, w': World)
    requires Inv(n, w) && Next(n, w, e, w')
    requires e.Drop? || e.JobEnds? || e.AbortDeletes?
    ensures Inv(n, w')
  {
    if e.AbortDeletes? {
      JobDeletedHere(w.Current(), w.jobs, w.created, w.byOthers, w.byController, e.i);
    }
  }

  lemma OthersKeep(n: nat, w: World, i: nat, w': World)
    requires Inv(n, w) && Next(n, w, DeletedByOthers(i), w')
    ensures Inv(n, w')
  {
    HistoryFrame(n, w.history, w.created, Gone(w), w.created, Gone(w'));
    JobDeletedByOthers(w.Current(), w.jobs, w.created, w.byOthers, w.byController, i);
    if w.pass.Some? {
      var p := w.pass.value;
      PassFrame(n, w.history[p.base], w.Current(), p.base == |w.history| - 1, w.created, Gone(w), p, Gone(w'));
    }
  }

  lemma StepKeeps(n: nat, w: World, e: Event, w': World)
    requires Inv(n, w) && Next(n, w, e, w')
    ensures Inv(n, w')
  {
    match e
    case CheckNext(seen) => CheckNextKeeps(n, w, seen, w');
    case Commit => CommitKeeps(n, w, w');
    case OtherWrite => WriteKeeps(n, w, e, w');
    case AbortAsked => WriteKeeps(n, w, e, w');
    case AbortEnds => WriteKeeps(n, w, e, w');
    case Begin(base) => BeginKeeps(n, w, base, w');
    case DeleteNext => DeleteKeeps(n, w, e, w');
    case SkipDelete => DeleteKeeps(n, w, e, w');
    case DeletedByOthers(i) => OthersKeep(n, w, i, w');
    case _ => OutsideKeeps(n, w, e, w');
  }

  // ----- Every run --------------------------------------------------------------------

  ghost predicate IsRun(n: nat, worlds: seq<World>, events: seq<Event>) {
    && |worlds| == |events| + 1
    && worlds[0] == START
    && (forall i {:trigger worlds[i]} :: 0 <= i < |worlds| ==> worlds[i].history != [])
    && forall i {:trigger events[i]} :: 0 <= i < |events| ==> Next(n, worlds[i], events[i], worlds[i + 1])
  }

  lemma {:induction false} RunKeeps(n: nat, worlds: seq<World>, events: seq<Event>, k: nat)
    requires IsRun(n, worlds, events) && k <= |events|
    ensures Inv(n, worlds[k])
  {
    if k == 0 {
      StartIsGood(n);
    } else {
      RunKeeps(n, worlds, events, k - 1);
      assert Next(n, worlds[k - 1], events[k - 1], worlds[k]);
      StepKeeps(n, worlds[k - 1], events[k - 1], worlds[k]);
    }
  }

  lemma {:induction false} NothingSums(n: nat)
    ensures SumCounts(map[], n) == None && SumArtifacts(map[], n) == multiset{}
  {
    if n > 0 {
      NothingSums(n - 1);
    }
  }

  lemma StartIsGood(n: nat)
    ensures Inv(n, START)
  {
    NothingSums(n);
    var v := START.history[0];
    forall i: nat ensures v.status.Step(i) == FRESH && !v.status.Done(i) {}
    assert Good(v, n, {}) && EndsRight(v, n);
    assert KeptIn(v, v) && OrphansExplained(v, {});
    forall k | 0 <= k < |START.history| ensures Good(START.history[k], n, {}) && EndsRight(START.history[k], n) {}
    assert HistoryOk(n, START.history, {}, {});
  }

  /**
   In every reachable state, the stored test counts are the sum over the workers that have
   a verdict, each counted once, and the artifacts the union of theirs under separate
   prefixes; a run that ended by itself carries the aggregate of all its workers.
   */
  lemma EveryWorkerCountedOnce(n: nat, worlds: seq<World>, events: seq<Event>, k: nat)
    requires IsRun(n, worlds, events) && k <= |events|
    ensures Accounts(worlds[k].Current(), n) && EndsRight(worlds[k].Current(), n)
  {
    RunKeeps(n, worlds, events, k);
    var w := worlds[k];
    assert Good(w.history[|w.history| - 1], n, w.created);
  }

  /** A verdict once stored is in every later version, unchanged. */
  lemma VerdictsNeverChange(n: nat, worlds: seq<World>, events: seq<Event>, k: nat, early: nat, late: nat, i: nat)
    requires IsRun(n, worlds, events) && k <= |events|
    requires early <= late < |worlds[k].history| && worlds[k].history[early].status.Done(i)
    ensures worlds[k].history[late].status.Step(i) == worlds[k].history[early].status.Step(i)
  {
    RunKeeps(n, worlds, events, k);
    var w := worlds[k];
    var a, b := w.history[early], w.history[late];
    assert Good(a, n, w.created) && Good(b, n, w.created) && KeptIn(a, b);
    assert a.verdicts[i] == b.verdicts[i];
  }

  /** A worker is recorded as an orphan only when others deleted its Job, or a live read did not tell of it. */
  lemma OrphansAreGoneOrUnseen(n: nat, worlds: seq<World>, events: seq<Event>, k: nat, i: nat)
    requires IsRun(n, worlds, events) && k <= |events|
    requires worlds[k].Current().status.Step(i) == WorkerStep(Error, OrphanJobMissing)
    ensures i in worlds[k].byOthers || i in worlds[k].blind
  {
    RunKeeps(n, worlds, events, k);
    var w := worlds[k];
    var v := w.history[|w.history| - 1];
    assert Good(v, n, w.created);
    assert HistoryOk(n, w.history, w.created, Gone(w));
    assert v.status.Done(i) <==> i in v.verdicts;
    assert v.status.Step(i) == WorkerStep(v.verdicts[i].phase, v.verdicts[i].message);
    assert OrphansExplained(v, Gone(w));
  }

  /**
   Unless the run is being aborted, a worker whose Job the controller deleted has its own result stored: it
   was stored before the Job went, and it is no orphan in any later version, whatever reads fail.
   */
  lemma FinishedIsNoOrphan(n: nat, worlds: seq<World>, events: seq<Event>, k: nat, i: nat)
    requires IsRun(n, worlds, events) && k <= |events|
    requires i in worlds[k].byController && !worlds[k].Current().abort
    ensures worlds[k].Current().status.Done(i) && worlds[k].Current().status.Step(i).message != OrphanJobMissing
  {
    RunKeeps(n, worlds, events, k);
    var w := worlds[k];
    assert Good(w.history[|w.history| - 1], n, w.created);
    assert HasResult(w.Current(), i);
  }

  // ----- An undisturbed pass ----------------------------------------------------------

  /** worlds follow one another by a pass's beginning and its looks at the first k workers. */
  ghost predicate LooksOn(n: nat, worlds: seq<World>, base: nat, seen: seq<Sighting>, k: nat) {
    && k <= |seen| && |worlds| == k + 2
    && (forall i {:trigger worlds[i]} :: 0 <= i < |worlds| ==> worlds[i].history != [])
    && Next(n, worlds[0], Begin(base), worlds[1])
    && forall i {:trigger seen[i]} :: 0 <= i < k ==> Next(n, worlds[i + 1], CheckNext(seen[i]), worlds[i + 2])
  }

  /** The pass holds what CheckAll computes from the version it read. */
  ghost predicate HoldsChecked(p: Option<Pass>, base: nat, k: nat, c: Option<(Status, bool, seq<nat>)>) {
    match c
    case None => p == None
    case Some((s, finished, jobs)) =>
      && p.Some? && p.value.base == base && p.value.next == k && !p.value.committed
      && p.value.local.status == s && p.value.finished == finished && p.value.jobs == jobs
  }

  /** What a pass of the protocol that nothing disturbs has found is what the reconciler's loop computes. */
  lemma {:induction false} PassIsCheckAll(n: nat, worlds: seq<World>, base: nat, seen: seq<Sighting>, k: nat)
    requires LooksOn(n, worlds, base, seen, k)
    ensures worlds[k + 1].history == worlds[0].history
    ensures HoldsChecked(worlds[k + 1].pass, base, k, CheckAll(worlds[0].history[base].status, seen, k))
  {
    if k > 0 {
      var before := worlds[..k + 1];
      forall i {:trigger seen[i]} | 0 <= i < k - 1 ensures Next(n, before[i + 1], CheckNext(seen[i]), before[i + 2]) {
        assert before[i + 1] == worlds[i + 1] && before[i + 2] == worlds[i + 2];
      }
      assert before[0] == worlds[0] && before[1] == worlds[1] && before[k] == worlds[k];
      PassIsCheckAll(n, before, base, seen, k - 1);
      assert Next(n, worlds[k], CheckNext(seen[k - 1]), worlds[k + 1]);
    }
  }

  /** Its write is the reconciler's: the outcome, if that is not what the version read says already. */
  lemma CommitIsTheWrite(n: nat, worlds: seq<World>, base: nat, seen: seq<Sighting>, w': World)
    requires LooksOn(n, worlds, base, seen, n) && Next(n, worlds[n + 1], Commit, w') && |seen| == n
    ensures var was := worlds[0].history[base].status;
            var c := CheckAll(was, seen, n);
            && c.Some? && var (s, finished, jobs) := c.value;
            && w'.pass.Some? && w'.pass.value.jobs == jobs
            && var out := Outcome(s, n, finished);
            && (finished ==> out != was)
            && |w'.history| == |worlds[0].history| + (if out == was then 0 else 1)
            && (out != was ==> worlds[0].history == w'.history[..|worlds[0].history|] && w'.Current().status == out)
  {
    PassIsCheckAll(n, worlds, base, seen, n);
  }

  // ----- A live read that fails -------------------------------------------------------

  /** A run of one worker: its Job is made, and then neither the cache nor the API server tells of it. */
  function Unseen(): seq<Event> {
    [Begin(0), CheckNext(NotFound(Absent, Created)), Commit, Drop, Begin(1), CheckNext(NotFound(ReadFails, CreateFails)), Commit]
  }

  function UnseenWorlds(): seq<World> {
    var queued := Status(Queued, map[0 := WorkerStep(Queued, Reported(""))], None, []);
    var v0 := START.history[0];
    var v1 := Version(queued, false, map[]);
    var r1 := Version(queued.(phase := Running), false, map[]);
    var v2 := Version(Finish(r1.status, 0, ORPHANED), false, map[0 := ORPHANED]);
    var r2 := v2.(status := Outcome(v2.status, 1, true));
    var w2 := World([v0], {0}, {0}, {}, {}, {}, {}, Some(Pass(0, v1, 1, false, [], false)));
    var w3 := w2.(history := [v0, r1], pass := Some(w2.pass.value.(committed := true)));
    var w4 := w3.(pass := None);
    var w6 := w4.(blind := {0}, pass := Some(Pass(1, v2, 1, true, [], false)));
    [START, START.(pass := Some(Pass(0, v0, 0, true, [], false))), w2, w3, w4,
     w4.(pass := Some(Pass(1, r1, 0, true, [], false))), w6,
     w6.(history := [v0, r1, r2], pass := Some(w6.pass.value.(committed := true)))]
  }

  lemma MakesTheJob()
    ensures var ws := UnseenWorlds();
            && Next(1, ws[0], Begin(0), ws[1])
            && Next(1, ws[1], CheckNext(NotFound(Absent, Created)), ws[2])
            && Next(1, ws[2], Commit, ws[3])
            && Next(1, ws[3], Drop, ws[4])
  {
    var ws := UnseenWorlds();
    assert map[][0 := WorkerStep(Queued, Reported(""))] == map[0 := WorkerStep(Queued, Reported(""))];
    assert {} + {0} == {0};
    assert [START.history[0]] + [ws[3].history[1]] == ws[3].history;
  }

  lemma TakesItForDeleted()
    ensures var ws := UnseenWorlds();
            && Next(1, ws[4], Begin(1), ws[5])
            && Next(1, ws[5], CheckNext(NotFound(ReadFails, CreateFails)), ws[6])
            && Next(1, ws[6], Commit, ws[7])
  {
    var ws := UnseenWorlds();
    assert map[][0 := ORPHANED] == map[0 := ORPHANED];
    assert {} + {0} == {0};
    assert ws[6].history + [ws[7].history[2]] == ws[7].history;
  }

  /** Any error of the live read is taken for a deletion: the worker is an orphan though its Job is there. */
  lemma FailedLiveReadLooksDeleted()
    ensures IsRun(1, UnseenWorlds(), Unseen())
    ensures var w := UnseenWorlds()[7];
            0 in w.jobs && 0 !in w.byOthers && w.Current().status.Step(0) == WorkerStep(Error, OrphanJobMissing)
  {
    var ws, es := UnseenWorlds(), Unseen();
    MakesTheJob();
    TakesItForDeleted();
    forall i | 0 <= i < |es| ensures Next(1, ws[i], es[i], ws[i + 1]) {
      assert i in {0, 1, 2, 3, 4, 5, 6};
    }
  }
}
