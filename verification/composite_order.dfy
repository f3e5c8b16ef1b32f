/**
 The order of a composite run's steps: when what the status says of them, and the children that
 exist, follow from what the children and the timeouts have decided.
 */
module CompositeOrder {
  import opened Bytes
  import opened Phases
  import opened Composite
  import opened CompositeTries
  import opened CompositeProtocol

  // ----- What has been decided --------------------------------------------------------

  /** The verdicts of the first n steps by the children and the timeouts alone; None while one is open. */
  function Decided(plan: Plan, kids: Kids, late: set<nat>, n: nat): (r: Option<seq<Verdict>>)
    requires n <= |plan|
    ensures r.Some? ==> |r.value| == n
  {
    if n == 0 then Some([])
    else
      var prior := Decided(plan, kids, late, n - 1);
      if prior.None? then None
      else if ShouldSkip(prior.value, plan) then Some(prior.value + [None])
      else if n - 1 in late then Some(prior.value + [Some(Failed)])
      else
        var g := Gather(kids, n - 1, plan[n - 1], |plan[n - 1].expected|);
        if g.done then Some(prior.value + [Some(Aggregate(g.outcomes, plan[n - 1].negative))]) else None
  }

  /** Every step before k is settled, and they do not call for k to be skipped. */
  predicate Reached(plan: Plan, kids: Kids, late: set<nat>, k: nat) {
    k < |plan| && Decided(plan, kids, late, k).Some? && !ShouldSkip(Decided(plan, kids, late, k).value, plan)
  }

  lemma {:induction false} DecidedStays(plan: Plan, a: Kids, b: Kids, late: set<nat>, n: nat)
    requires n <= |plan| && WellTried(plan, b) && Grows(a, b) && Decided(plan, a, late, n).Some?
    ensures Decided(plan, b, late, n) == Decided(plan, a, late, n)
  {
    if n > 0 {
      DecidedStays(plan, a, b, late, n - 1);
      if !ShouldSkip(Decided(plan, a, late, n - 1).value, plan) && n - 1 !in late {
        SettledStays(plan, a, b, n - 1, |plan[n - 1].expected|);
      }
    }
  }

  lemma {:induction false} DecidedPrefix(plan: Plan, kids: Kids, late: set<nat>, m: nat, n: nat)
    requires m <= n <= |plan| && Decided(plan, kids, late, n).Some?
    ensures Decided(plan, kids, late, m) == Some(Decided(plan, kids, late, n).value[..m])
  {
    var all := Decided(plan, kids, late, n).value;
    if m == n {
      assert all[..m] == all;
    } else {
      DecidedPrefix(plan, kids, late, m, n - 1);
      assert all[..m] == all[..n - 1][..m];
      assert all[..n - 1] == Decided(plan, kids, late, n - 1).value;
    }
  }

  /** A timeout of step i does not touch what was decided up to it. */
  lemma {:induction false} DecidedBefore(plan: Plan, kids: Kids, late: set<nat>, i: nat, n: nat)
    requires n <= |plan| && n <= i
    ensures Decided(plan, kids, late + {i}, n) == Decided(plan, kids, late, n)
  {
    if n > 0 {
      DecidedBefore(plan, kids, late, i, n - 1);
    }
  }

  /** The verdicts decided skip exactly the steps that their predecessors call for. */
  lemma DecidedSkips(plan: Plan, kids: Kids, late: set<nat>, n: nat)
    requires n <= |plan| && Decided(plan, kids, late, n).Some?
    ensures SkippedRight(Decided(plan, kids, late, n).value, plan)
    ensures forall k {:trigger Decided(plan, kids, late, n).value[k]} ::
              0 <= k < n && Decided(plan, kids, late, n).value[k].Some? ==> IsTerminal(Decided(plan, kids, late, n).value[k].value)
  {
    var all := Decided(plan, kids, late, n).value;
    forall k | 0 <= k < n
      ensures all[k].None? <==> ShouldSkip(all[..k], plan)
      ensures all[k].Some? ==> IsTerminal(all[k].value)
    {
      DecidedPrefix(plan, kids, late, k, n);
      DecidedPrefix(plan, kids, late, k + 1, n);
      assert all[..k + 1][k] == all[k];
      var g := Gather(kids, k, plan[k], |plan[k].expected|);
      AggregateIsTerminal(g.outcomes, plan[k].negative);
    }
  }

  // ----- What holds besides ------------------------------------------------------------

  // All of it is about the steps up to some step h. What becomes of h itself decides nothing further.

  /** A mark says no more than what was decided. */
  predicate MarkOk(plan: Plan, kids: Kids, late: set<nat>, mark: Mark, k: nat, h: nat)
    requires k < |plan|
  {
    match mark
    case Unmarked => true
    case Started => Reached(plan, kids, late, k)
    case Bypassed => Decided(plan, kids, late, k).Some? && ShouldSkip(Decided(plan, kids, late, k).value, plan)
    case Closed(v) =>
      Reached(plan, kids, late, k)
      && (k < h ==> Decided(plan, kids, late, k + 1) == Some(Decided(plan, kids, late, k).value + [Some(v)]))
  }

  ghost predicate MarksOk(plan: Plan, kids: Kids, late: set<nat>, steps: seq<Mark>, h: nat) {
    && |steps| == |plan|
    && forall k {:trigger MarkOk(plan, kids, late, steps[k], k, h)} :: 0 <= k < |steps| && k <= h ==> MarkOk(plan, kids, late, steps[k], k, h)
  }

  ghost predicate HistoryOk(plan: Plan, kids: Kids, late: set<nat>, history: seq<Status>, h: nat) {
    forall v {:trigger MarksOk(plan, kids, late, history[v].steps, h)} ::
      0 <= v < |history| ==> MarksOk(plan, kids, late, history[v].steps, h)
  }

  ghost predicate KidsOk(plan: Plan, kids: Kids, late: set<nat>, h: nat) {
    forall t {:trigger Reached(plan, kids, late, t.step)} :: t in kids && t.step <= h ==> Reached(plan, kids, late, t.step)
  }

  /** The verdicts of a pass are what was decided. */
  ghost predicate Told(plan: Plan, kids: Kids, late: set<nat>, verdicts: seq<Verdict>, h: nat) {
    && |verdicts| <= |plan|
    && var n := Min(|verdicts|, h);
       Decided(plan, kids, late, n) == Some(verdicts[..n])
  }

  ghost predicate PassOk(plan: Plan, kids: Kids, late: set<nat>, p: Pass, h: nat) {
    MarksOk(plan, kids, late, p.steps, h) && Told(plan, kids, late, p.verdicts, h)
  }

  ghost predicate Inv(plan: Plan, w: World, h: nat) {
    && Sound(plan, w)
    && KidsOk(plan, w.kids, w.timedOut, h)
    && HistoryOk(plan, w.kids, w.timedOut, w.history, h)
    && (w.pass.Some? ==> PassOk(plan, w.kids, w.timedOut, w.pass.value, h))
  }

  // Two regimes. In one no step before h is ended by its timeout: status writes may be lost, and reads
  // may be old. In the other, the calm one, any step may be, but a pass has read the latest status and
  // does not lose what it has decided.

  /** The marks that count: those of the pass at work, else those written. */
  function Current(w: World): seq<Mark>
    requires w.history != []
  {
    if w.pass.Some? then w.pass.value.steps else Now(w).steps
  }

  ghost predicate Busy(kids: Kids, steps: seq<Mark>, k: nat)
    requires k < |steps|
  {
    steps[k] != Unmarked || exists t :: t in kids && t.step == k
  }

  /** Only a step whose predecessors are all settled has children or a mark. */
  ghost predicate InTurn(kids: Kids, steps: seq<Mark>) {
    forall j, k {:trigger IsSettled(steps[j]), Busy(kids, steps, k)} ::
      0 <= j < k < |steps| && Busy(kids, steps, k) ==> IsSettled(steps[j])
  }

  ghost predicate CalmOk(plan: Plan, w: World)
    requires w.history != []
  {
    && (w.pass.Some? ==> w.pass.value.base == |w.history| - 1)
    && InTurn(w.kids, Current(w))
    && forall j {:trigger j in w.timedOut} :: j in w.timedOut ==> j < |Current(w)| && Current(w)[j].Closed?
  }

  ghost predicate Regime(plan: Plan, w: World, calm: bool, h: nat)
    requires w.history != []
  {
    if calm then h == |plan| && CalmOk(plan, w) else forall j {:trigger j in w.timedOut} :: j in w.timedOut ==> h <= j
  }

  ghost predicate Allowed(plan: Plan, w: World, e: Event, calm: bool, h: nat)
    requires Enabled(plan, w, e)
  {
    if !calm then e.Wait? && e.ending == TimedOut ==> h <= |w.pass.value.verdicts|
    else
      match e
      case Begin(base, _, _) => base == |w.history| - 1
      case Elsewhere(_) => w.pass.None?
      case Wait(_, ending) => ending == Lost ==> w.pass.value.steps == Now(w).steps
      case Finish(stored) => !stored ==> w.pass.value.steps == Now(w).steps
      case Drop => w.pass.value.steps == Now(w).steps
      case _ => true
  }

  // ----- Children join ----------------------------------------------------------------

  lemma ReachedStays(plan: Plan, a: Kids, b: Kids, late: set<nat>, k: nat)
    requires WellTried(plan, b) && Grows(a, b) && Reached(plan, a, late, k)
    ensures Reached(plan, b, late, k)
  {
    DecidedStays(plan, a, b, late, k);
  }

  lemma MarkStays(plan: Plan, a: Kids, b: Kids, late: set<nat>, mark: Mark, k: nat, h: nat)
    requires k < |plan| && WellTried(plan, b) && Grows(a, b) && MarkOk(plan, a, late, mark, k, h)
    ensures MarkOk(plan, b, late, mark, k, h)
  {
    if mark != Unmarked {
      DecidedStays(plan, a, b, late, k);
      if mark.Closed? && k < h {
        DecidedStays(plan, a, b, late, k + 1);
      }
    }
  }

  lemma MarksStay(plan: Plan, a: Kids, b: Kids, late: set<nat>, steps: seq<Mark>, h: nat)
    requires WellTried(plan, b) && Grows(a, b) && MarksOk(plan, a, late, steps, h)
    ensures MarksOk(plan, b, late, steps, h)
  {
    forall k | 0 <= k < |steps| && k <= h ensures MarkOk(plan, b, late, steps[k], k, h) {
      assert MarkOk(plan, a, late, steps[k], k, h);
      MarkStays(plan, a, b, late, steps[k], k, h);
    }
  }

  lemma HistoryStays(plan: Plan, a: Kids, b: Kids, late: set<nat>, history: seq<Status>, h: nat)
    requires WellTried(plan, b) && Grows(a, b) && HistoryOk(plan, a, late, history, h)
    ensures HistoryOk(plan, b, late, history, h)
  {
    forall v | 0 <= v < |history| ensures MarksOk(plan, b, late, history[v].steps, h) {
      assert MarksOk(plan, a, late, history[v].steps, h);
      MarksStay(plan, a, b, late, history[v].steps, h);
    }
  }

  lemma KidsStay(plan: Plan, a: Kids, b: Kids, late: set<nat>, h: nat)
    requires WellTried(plan, b) && Grows(a, b) && KidsOk(plan, a, late, h)
    requires forall t {:trigger t in b} :: t in b && t.step <= h ==> t in a || Reached(plan, a, late, t.step)
    ensures KidsOk(plan, b, late, h)
  {
    forall t | t in b && t.step <= h ensures Reached(plan, b, late, t.step) {
      assert Reached(plan, a, late, t.step);
      ReachedStays(plan, a, b, late, t.step);
    }
  }

  lemma PassStays(plan: Plan, a: Kids, b: Kids, late: set<nat>, p: Pass, h: nat)
    requires WellTried(plan, b) && Grows(a, b) && PassOk(plan, a, late, p, h)
    ensures PassOk(plan, b, late, p, h)
  {
    var n := Min(|p.verdicts|, h);
    DecidedStays(plan, a, b, late, n);
    MarksStay(plan, a, b, late, p.steps, h);
  }

  /** The order holds, whatever pass and versions there are. */
  ghost predicate OrderOk(plan: Plan, kids: Kids, late: set<nat>, history: seq<Status>, pass: Option<Pass>, h: nat) {
    && KidsOk(plan, kids, late, h)
    && HistoryOk(plan, kids, late, history, h)
    && (pass.Some? ==> PassOk(plan, kids, late, pass.value, h))
  }

  lemma KidsJoin(plan: Plan, w: World, kids: Kids, h: nat)
    requires Inv(plan, w, h) && WellTried(plan, kids) && Grows(w.kids, kids)
    requires forall t {:trigger t in kids} :: t in kids && t.step <= h ==> t in w.kids || Reached(plan, w.kids, w.timedOut, t.step)
    ensures OrderOk(plan, kids, w.timedOut, w.history, w.pass, h)
  {
    KidsStay(plan, w.kids, kids, w.timedOut, h);
    HistoryStays(plan, w.kids, kids, w.timedOut, w.history, h);
    if w.pass.Some? {
      PassStays(plan, w.kids, kids, w.timedOut, w.pass.value, h);
    }
  }

  lemma HistoryJoins(plan: Plan, kids: Kids, late: set<nat>, history: seq<Status>, s: Status, h: nat)
    requires HistoryOk(plan, kids, late, history, h) && MarksOk(plan, kids, late, s.steps, h)
    ensures HistoryOk(plan, kids, late, history + [s], h)
  {
    var all := history + [s];
    forall v | 0 <= v < |all| ensures MarksOk(plan, kids, late, all[v].steps, h) {
      assert v < |history| ==> MarksOk(plan, kids, late, history[v].steps, h);
    }
  }

  // ----- The pass moves on ------------------------------------------------------------

  lemma ToldAt(plan: Plan, kids: Kids, late: set<nat>, p: Pass, h: nat)
    requires Told(plan, kids, late, p.verdicts, h) && |p.verdicts| <= h && |p.verdicts| < |plan|
    ensures Decided(plan, kids, late, |p.verdicts|) == Some(p.verdicts)
  {
    assert p.verdicts[..|p.verdicts|] == p.verdicts;
  }

  /** Settling the step the pass is at. */
  lemma AdvancedOk(plan: Plan, kids: Kids, late: set<nat>, p: Pass, v: Verdict, h: nat)
    requires PassOk(plan, kids, late, p, h) && |p.verdicts| < |plan|
    requires |p.verdicts| < h ==> Decided(plan, kids, late, |p.verdicts| + 1) == Some(p.verdicts + [v])
    requires v.None? <==> ShouldSkip(p.verdicts, plan)
    ensures PassOk(plan, kids, late, Advanced(p, MarkOf(v), v), h)
  {
    var i := |p.verdicts|;
    var q := Advanced(p, MarkOf(v), v);
    if i <= h {
      ToldAt(plan, kids, late, p, h);
      assert (p.verdicts + [v])[..i] == p.verdicts;
      assert (p.verdicts + [v])[..i + 1] == p.verdicts + [v];
    } else {
      assert (p.verdicts + [v])[..h] == p.verdicts[..h];
    }
    forall k | 0 <= k < |q.steps| && k <= h ensures MarkOk(plan, kids, late, q.steps[k], k, h) {
      assert MarkOk(plan, kids, late, p.steps[k], k, h);
    }
  }

  /** What happens at step i, all before it settled, puts nothing out of turn. */
  lemma InTurnAt(kids: Kids, steps: seq<Mark>, kids2: Kids, steps2: seq<Mark>, i: nat)
    requires InTurn(kids, steps) && i < |steps| == |steps2|
    requires forall j {:trigger IsSettled(steps[j])} :: 0 <= j < i ==> IsSettled(steps[j])
    requires forall k {:trigger steps2[k]} :: 0 <= k < |steps| && k != i ==> steps2[k] == steps[k]
    requires IsSettled(steps[i]) ==> IsSettled(steps2[i])
    requires forall t {:trigger t in kids2} :: t in kids2 ==> t in kids || t.step == i
    ensures InTurn(kids2, steps2)
  {
    forall j, k | 0 <= j < k < |steps2| && Busy(kids2, steps2, k) ensures IsSettled(steps2[j]) {
      assert j < i ==> IsSettled(steps[j]);
      if k > i {
        assert Busy(kids, steps, k);
        assert IsSettled(steps[j]);
      }
    }
  }

  // ----- Each event -------------------------------------------------------------------

  lemma MovesKeep(plan: Plan, w: World, e: Event, calm: bool, h: nat)
    requires Inv(plan, w, h) && Regime(plan, w, calm, h) && e.KidMoves? && Enabled(plan, w, e)
    ensures Inv(plan, After(plan, w, e), h) && Regime(plan, After(plan, w, e), calm, h)
  {
    StepSound(plan, w, e);
    MovesSound(plan, w, e);
    var kids := After(plan, w, e).kids;
    KidsJoin(plan, w, kids, h);
    if calm && Current(w) != [] {
      assert forall k {:trigger Busy(kids, Current(w), k)} :: 0 <= k < |Current(w)| && Busy(kids, Current(w), k) ==> Busy(w.kids, Current(w), k);
    }
  }

  lemma AdvanceKeeps(plan: Plan, w: World, e: Event, calm: bool, h: nat)
    requires Inv(plan, w, h) && Regime(plan, w, calm, h) && (e.Skip? || e.TakeRecorded? || e.Settle?) && Enabled(plan, w, e)
    ensures Inv(plan, After(plan, w, e), h) && Regime(plan, After(plan, w, e), calm, h)
  {
    StepSound(plan, w, e);
    var p := w.pass.value;
    var i := |p.verdicts|;
    var q := After(plan, w, e).pass.value;
    var v := q.verdicts[i];
    AgreeSettles(p.steps, p.verdicts);
    if i <= h {
      ToldAt(plan, w.kids, w.timedOut, p, h);
      assert MarkOk(plan, w.kids, w.timedOut, p.steps[i], i, h);
    }
    if e.Settle? {
      SettledStays(plan, p.view, w.kids, i, |plan[i].expected|);
      assert i < h ==> i !in w.timedOut;
    }
    AdvancedOk(plan, w.kids, w.timedOut, p, v, h);
    assert q == Advanced(p, MarkOf(v), v);
    if calm {
      InTurnAt(w.kids, p.steps, w.kids, q.steps, i);
    }
  }

  lemma EnsureKeeps(plan: Plan, w: World, e: Event, calm: bool, h: nat)
    requires Inv(plan, w, h) && Regime(plan, w, calm, h) && e.Ensure? && Enabled(plan, w, e)
    ensures Inv(plan, After(plan, w, e), h) && Regime(plan, After(plan, w, e), calm, h)
  {
    EnsureSound(plan, w, e);
    var p := w.pass.value;
    var kids := Ensured(plan, w, e.m);
    if |p.verdicts| <= h {
      ToldAt(plan, w.kids, w.timedOut, p, h);
    }
    KidsJoin(plan, w, kids, h);
    if calm {
      AgreeSettles(p.steps, p.verdicts);
      InTurnAt(w.kids, p.steps, kids, p.steps, |p.verdicts|);
    }
  }

  lemma WaitingOk(plan: Plan, kids: Kids, late: set<nat>, p: Pass, h: nat)
    requires PassOk(plan, kids, late, p, h) && AtOpenStep(plan, p)
    ensures MarksOk(plan, kids, late, Waiting(p), h)
  {
    if |p.verdicts| <= h {
      ToldAt(plan, kids, late, p, h);
    }
    forall k | 0 <= k < |plan| && k <= h ensures MarkOk(plan, kids, late, Waiting(p)[k], k, h) {
      assert MarkOk(plan, kids, late, p.steps[k], k, h);
    }
  }

  /** The children a wait adds are in their turn. */
  lemma WaitJoins(plan: Plan, w: World, e: Event, h: nat)
    requires Inv(plan, w, h) && e.Wait? && Enabled(plan, w, e)
    ensures OrderOk(plan, After(plan, w, e).kids, w.timedOut, w.history, w.pass, h)
    ensures forall t {:trigger t in After(plan, w, e).kids} :: t in After(plan, w, e).kids ==> t in w.kids || t.step == |w.pass.value.verdicts|
  {
    RetriesJoin(plan, w, e.m);
    if |w.pass.value.verdicts| <= h {
      ToldAt(plan, w.kids, w.timedOut, w.pass.value, h);
    }
    KidsJoin(plan, w, After(plan, w, e).kids, h);
  }

  lemma StoredKeeps(plan: Plan, w: World, e: Event, calm: bool, h: nat)
    requires Inv(plan, w, h) && Regime(plan, w, calm, h) && e.Wait? && e.ending == Stored && Enabled(plan, w, e)
    ensures Inv(plan, After(plan, w, e), h) && Regime(plan, After(plan, w, e), calm, h)
  {
    StepSound(plan, w, e);
    WaitJoins(plan, w, e, h);
    var p := w.pass.value;
    var kids := After(plan, w, e).kids;
    WaitingOk(plan, kids, w.timedOut, p, h);
    HistoryJoins(plan, kids, w.timedOut, w.history, Status(Running, Waiting(p)), h);
    if calm {
      AgreeSettles(p.steps, p.verdicts);
      InTurnAt(w.kids, p.steps, kids, Waiting(p), |p.verdicts|);
    }
  }

  // ----- Timing out -------------------------------------------------------------------

  /** Step i is not settled, and no step after it has a mark. */
  ghost predicate OpenFrom(steps: seq<Mark>, i: nat) {
    forall k {:trigger steps[k]} :: i <= k < |steps| ==> if k == i then !IsSettled(steps[k]) else steps[k] == Unmarked
  }

  /** A timeout of step i leaves what the marks say true, if it is not before h or nothing has come of it. */
  lemma LateMark(plan: Plan, kids: Kids, late: set<nat>, mark: Mark, k: nat, i: nat, h: nat)
    requires k < |plan| && MarkOk(plan, kids, late, mark, k, h)
    requires k <= h && (i < h ==> (k > i ==> mark == Unmarked) && (k == i ==> !IsSettled(mark)))
    ensures MarkOk(plan, kids, late + {i}, mark, k, h)
  {
    if k <= i {
      DecidedBefore(plan, kids, late, i, k);
      if k < i {
        DecidedBefore(plan, kids, late, i, k + 1);
      }
    }
  }

  lemma LateMarks(plan: Plan, kids: Kids, late: set<nat>, steps: seq<Mark>, i: nat, h: nat)
    requires MarksOk(plan, kids, late, steps, h) && i < |plan| && (h <= i || OpenFrom(steps, i))
    ensures MarksOk(plan, kids, late + {i}, steps, h)
  {
    forall k | 0 <= k < |steps| && k <= h ensures MarkOk(plan, kids, late + {i}, steps[k], k, h) {
      assert MarkOk(plan, kids, late, steps[k], k, h);
      LateMark(plan, kids, late, steps[k], k, i, h);
    }
  }

  lemma OpenBefore(a: seq<Mark>, b: seq<Mark>, i: nat)
    requires Follows(a, b) && OpenFrom(b, i)
    ensures OpenFrom(a, i)
  {
    forall k | i <= k < |a| ensures if k == i then !IsSettled(a[k]) else a[k] == Unmarked {
      assert Forward(a[k], b[k]);
    }
  }

  lemma LateHistory(plan: Plan, kids: Kids, late: set<nat>, history: seq<Status>, i: nat, h: nat)
    requires HistoryOk(plan, kids, late, history, h) && history != [] && Chain(history) && i < |plan|
    requires h <= i || OpenFrom(history[|history| - 1].steps, i)
    ensures HistoryOk(plan, kids, late + {i}, history, h)
  {
    forall v | 0 <= v < |history| ensures MarksOk(plan, kids, late + {i}, history[v].steps, h) {
      assert MarksOk(plan, kids, late, history[v].steps, h);
      assert Follows(history[v].steps, history[|history| - 1].steps);
      if i < h {
        OpenBefore(history[v].steps, history[|history| - 1].steps, i);
      }
      LateMarks(plan, kids, late, history[v].steps, i, h);
    }
  }

  lemma LateKids(plan: Plan, kids: Kids, late: set<nat>, i: nat, h: nat)
    requires KidsOk(plan, kids, late, h) && forall t {:trigger t in kids} :: t in kids && t.step <= h ==> t.step <= i
    ensures KidsOk(plan, kids, late + {i}, h)
  {
    forall t | t in kids && t.step <= h ensures Reached(plan, kids, late + {i}, t.step) {
      assert Reached(plan, kids, late, t.step);
      DecidedBefore(plan, kids, late, i, t.step);
    }
  }

  /** Nothing has come after a step that is still open. */
  lemma NothingAfter(kids: Kids, steps: seq<Mark>, i: nat)
    requires InTurn(kids, steps) && i < |steps| && !IsSettled(steps[i])
    ensures OpenFrom(steps, i)
    ensures forall t {:trigger t in kids} :: t in kids && t.step < |steps| ==> t.step <= i
  {
    forall k | i < k < |steps| ensures steps[k] == Unmarked && !Busy(kids, steps, k) {
      assert IsSettled(steps[i]) || !Busy(kids, steps, k);
    }
    forall t | t in kids && t.step < |steps| ensures t.step <= i {
      assert Busy(kids, steps, t.step);
    }
  }

  /** A pass finds the step it waits for overdue: it is not before h, or nothing has come of it. */
  lemma OverdueOk(plan: Plan, kids: Kids, late: set<nat>, p: Pass, h: nat)
    requires PassOk(plan, kids, late, p, h) && AtOpenStep(plan, p)
    requires h <= |p.verdicts| || OpenFrom(p.steps, |p.verdicts|)
    ensures PassOk(plan, kids, late + {|p.verdicts|}, Advanced(p, Closed(Failed), Some(Failed)), h)
  {
    var i := |p.verdicts|;
    LateMarks(plan, kids, late, p.steps, i, h);
    DecidedBefore(plan, kids, late, i, Min(i, h));
    if i < h {
      ToldAt(plan, kids, late, p, h);
    }
    AdvancedOk(plan, kids, late + {i}, p, Some(Failed), h);
  }

  /** In the calm regime nothing has come of a step that a pass is still waiting for. */
  lemma CalmIsOpen(plan: Plan, w: World)
    requires Inv(plan, w, |plan|) && CalmOk(plan, w) && w.pass.Some? && AtOpenStep(plan, w.pass.value)
    ensures OpenFrom(w.pass.value.steps, |w.pass.value.verdicts|)
    ensures forall t {:trigger t in w.kids} :: t in w.kids ==> t.step <= |w.pass.value.verdicts|
  {
    var p := w.pass.value;
    var i := |p.verdicts|;
    assert MarkOk(plan, w.kids, w.timedOut, p.steps[i], i, |plan|);
    ToldAt(plan, w.kids, w.timedOut, p, |plan|);
    NothingAfter(w.kids, p.steps, i);
    forall t | t in w.kids ensures t.step <= i {
      assert TryOk(plan, w.kids, t);
    }
  }

  lemma TimeoutKeeps(plan: Plan, w: World, e: Event, calm: bool, h: nat)
    requires Inv(plan, w, h) && Regime(plan, w, calm, h) && e.Wait? && e.ending == TimedOut && Enabled(plan, w, e)
    requires Allowed(plan, w, e, calm, h)
    ensures Inv(plan, After(plan, w, e), h) && Regime(plan, After(plan, w, e), calm, h)
  {
    StepSound(plan, w, e);
    WaitJoins(plan, w, e, h);
    var p := w.pass.value;
    var i := |p.verdicts|;
    var w2 := After(plan, w, e);
    var kids, hist, late := w2.kids, w.history, w.timedOut;
    assert Waiting(p) == p.steps;
    if calm {
      CalmIsOpen(plan, w);
      OpenBefore(hist[|hist| - 1].steps, p.steps, i);
      AgreeSettles(p.steps, p.verdicts);
      InTurnAt(w.kids, p.steps, kids, w2.pass.value.steps, i);
    }
    LateKids(plan, kids, late, i, h);
    LateHistory(plan, kids, late, hist, i, h);
    LateMarks(plan, kids, late, p.steps, i, h);
    HistoryJoins(plan, kids, late + {i}, hist, Status(Running, p.steps), h);
    OverdueOk(plan, kids, late, p.(base := |hist|), h);
  }

  // ----- The remaining events ---------------------------------------------------------

  lemma BeginKeeps(plan: Plan, w: World, e: Event, calm: bool, h: nat)
    requires Inv(plan, w, h) && Regime(plan, w, calm, h) && e.Begin? && Enabled(plan, w, e) && Allowed(plan, w, e, calm, h)
    ensures Inv(plan, After(plan, w, e), h) && Regime(plan, After(plan, w, e), calm, h)
  {
    StepSound(plan, w, e);
    var s := w.history[e.base];
    assert MarksOk(plan, w.kids, w.timedOut, s.steps, h);
    if s.phase != Running && e.stored {
      HistoryJoins(plan, w.kids, w.timedOut, w.history, s.(phase := Running), h);
    }
  }

  lemma ElsewhereKeeps(plan: Plan, w: World, e: Event, calm: bool, h: nat)
    requires Inv(plan, w, h) && Regime(plan, w, calm, h) && e.Elsewhere? && Enabled(plan, w, e) && Allowed(plan, w, e, calm, h)
    ensures Inv(plan, After(plan, w, e), h) && Regime(plan, After(plan, w, e), calm, h)
  {
    StepSound(plan, w, e);
    assert MarksOk(plan, w.kids, w.timedOut, Now(w).steps, h);
    HistoryJoins(plan, w.kids, w.timedOut, w.history, Now(w).(phase := e.phase), h);
  }

  lemma EndKeeps(plan: Plan, w: World, e: Event, calm: bool, h: nat)
    requires Inv(plan, w, h) && Regime(plan, w, calm, h) && Enabled(plan, w, e) && Allowed(plan, w, e, calm, h)
    requires e.Finish? || e.Drop? || (e.Wait? && e.ending == Lost)
    ensures Inv(plan, After(plan, w, e), h) && Regime(plan, After(plan, w, e), calm, h)
  {
    StepSound(plan, w, e);
    var p := w.pass.value;
    if e.Wait? {
      WaitJoins(plan, w, e, h);
      if calm {
        AgreeSettles(p.steps, p.verdicts);
        InTurnAt(w.kids, p.steps, After(plan, w, e).kids, p.steps, |p.verdicts|);
      }
    } else if e.Finish? && e.stored {
      HistoryJoins(plan, w.kids, w.timedOut, w.history, Status(ParentPhase(p.verdicts, plan), p.steps), h);
    }
  }

  lemma StepKeeps(plan: Plan, w: World, e: Event, calm: bool, h: nat)
    requires Inv(plan, w, h) && Regime(plan, w, calm, h) && Enabled(plan, w, e) && Allowed(plan, w, e, calm, h)
    ensures Inv(plan, After(plan, w, e), h) && Regime(plan, After(plan, w, e), calm, h)
  {
    match e
    case KidMoves(_, _) => MovesKeep(plan, w, e, calm, h);
    case Elsewhere(_) => ElsewhereKeeps(plan, w, e, calm, h);
    case Begin(_, _, _) => BeginKeeps(plan, w, e, calm, h);
    case Skip => AdvanceKeeps(plan, w, e, calm, h);
    case TakeRecorded => AdvanceKeeps(plan, w, e, calm, h);
    case Ensure(_, _) => EnsureKeeps(plan, w, e, calm, h);
    case Settle => AdvanceKeeps(plan, w, e, calm, h);
    case Wait(_, ending) =>
      if ending == Lost {
        EndKeeps(plan, w, e, calm, h);
      } else if ending == Stored {
        StoredKeeps(plan, w, e, calm, h);
      } else {
        TimeoutKeeps(plan, w, e, calm, h);
      }
    case Finish(_) => EndKeeps(plan, w, e, calm, h);
    case Drop => EndKeeps(plan, w, e, calm, h);
  }
}
