/** One undisturbed pass of the composite reconciler, and why passes come to an end. */
module CompositePass {
  import opened Bytes
  import opened Phases
  import opened Composite
  import opened CompositeTries
  import opened CompositeProtocol
  import opened CompositeOrder

  /** What the clock says of each step: its delay is not over yet; it is past its timeout. */
  datatype Clock = Clock(delayed: seq<bool>, overdue: seq<bool>)

  predicate ClockFits(plan: Plan, c: Clock) {
    |c.delayed| == |plan| == |c.overdue|
  }

  /** The pass has read the latest status and is where it can go on. */
  predicate Ready(plan: Plan, w: World) {
    && w.history != []
    && (w.pass.Some? ==>
          var p := w.pass.value;
          && p.base == |w.history| - 1
          && |p.steps| == |plan| && |p.verdicts| <= |plan|
          && (p.gathering ==> AtOpenStep(plan, p)))
  }

  /** What an undisturbed pass does next. */
  function Choice(plan: Plan, w: World, c: Clock): Event
    requires Ready(plan, w) && w.pass.Some? && ClockFits(plan, c)
  {
    var p := w.pass.value;
    var i := |p.verdicts|;
    if i == |plan| then Finish(true)
    else if p.gathering then
      if Gathers(plan, p).done then Settle
      else Wait(|Gathers(plan, p).again|,
                if plan[i].timeout && c.overdue[i] && p.steps[i] != Unmarked then TimedOut else Stored)
    else if ShouldSkip(p.verdicts, plan) then Skip
    else if p.steps[i].Closed? then TakeRecorded
    else
      var m := if c.delayed[i] then 0 else |FirstTries(plan, p)|;
      Ensure(m, Ensured(plan, w, m))
  }

  function Remaining(plan: Plan, w: World): int {
    if w.pass.None? then 0
    else 2 * (|plan| - |w.pass.value.verdicts|) + if w.pass.value.gathering then 1 else 2
  }

  lemma ChoiceIsReady(plan: Plan, w: World, c: Clock)
    requires Ready(plan, w) && w.pass.Some? && ClockFits(plan, c)
    ensures Enabled(plan, w, Choice(plan, w, c))
    ensures Ready(plan, After(plan, w, Choice(plan, w, c)))
    ensures 0 <= Remaining(plan, After(plan, w, Choice(plan, w, c))) < Remaining(plan, w)
    ensures Allowed(plan, w, Choice(plan, w, c), true, |plan|)
  {}

  /** The world once the pass is over. */
  ghost function Driven(plan: Plan, w: World, c: Clock): World
    requires Ready(plan, w) && ClockFits(plan, c)
    decreases Remaining(plan, w)
  {
    if w.pass.None? then w
    else
      ChoiceIsReady(plan, w, c);
      Driven(plan, After(plan, w, Choice(plan, w, c)), c)
  }

  /** A step is timed out only when it has a timeout, is past it, and was started before this pass. */
  lemma {:induction false} TimesOutOnlyOverdue(plan: Plan, w: World, c: Clock, k: nat)
    requires Ready(plan, w) && w.pass.Some? && ClockFits(plan, c) && |w.pass.value.verdicts| <= k
    requires k !in w.timedOut && k in Driven(plan, w, c).timedOut
    ensures k < |plan| && plan[k].timeout && c.overdue[k] && w.pass.value.steps[k] != Unmarked
    decreases Remaining(plan, w)
  {
    ChoiceIsReady(plan, w, c);
    var w' := After(plan, w, Choice(plan, w, c));
    if k !in w'.timedOut {
      LaterStepsUntouched(plan, w, c, k);
      assert w'.pass.Some?;
      if |w'.pass.value.verdicts| <= k {
        TimesOutOnlyOverdue(plan, w', c, k);
      } else {
        EarlierNotTimedOut(plan, w', c, k);
      }
    }
  }

  /** What a pass does at one step leaves the marks of the others. */
  lemma LaterStepsUntouched(plan: Plan, w: World, c: Clock, k: nat)
    requires Ready(plan, w) && w.pass.Some? && ClockFits(plan, c) && |w.pass.value.verdicts| <= k
    ensures var w' := After(plan, w, Choice(plan, w, c));
            w'.pass.Some? && |w'.pass.value.verdicts| <= k < |plan| ==> w'.pass.value.steps[k] == w.pass.value.steps[k]
  {}

  lemma {:induction false} EarlierNotTimedOut(plan: Plan, w: World, c: Clock, k: nat)
    requires Ready(plan, w) && ClockFits(plan, c) && (w.pass.Some? ==> k < |w.pass.value.verdicts|) && k !in w.timedOut
    ensures k !in Driven(plan, w, c).timedOut
    decreases Remaining(plan, w)
  {
    if w.pass.Some? {
      ChoiceIsReady(plan, w, c);
      EarlierNotTimedOut(plan, After(plan, w, Choice(plan, w, c)), c, k);
    }
  }

  /**
   A pass comes to an end of the run with every step settled, or to a step i before which
   all are, that is started and not past its timeout unless this pass has started it.
   */
  lemma {:induction false} PassStops(plan: Plan, w: World, c: Clock) returns (i: nat)
    requires Sound(plan, w) && Ready(plan, w) && w.pass.Some? && ClockFits(plan, c)
    ensures |w.pass.value.verdicts| <= i <= |plan|
    ensures var d := Driven(plan, w, c);
            && d.history != [] && |Now(d).steps| == |plan|
            && (forall j {:trigger Now(d).steps[j]} :: 0 <= j < i ==> IsSettled(Now(d).steps[j]))
            && (i == |plan| ==> Now(d).phase in {Passed, Failed, Error, Aborted})
            && (i < |plan| ==>
                  && Now(d).phase == Running && Now(d).steps[i] == Started
                  && !(plan[i].timeout && c.overdue[i] && w.pass.value.steps[i] != Unmarked))
    decreases Remaining(plan, w)
  {
    ChoiceIsReady(plan, w, c);
    StepSound(plan, w, Choice(plan, w, c));
    var p, w' := w.pass.value, After(plan, w, Choice(plan, w, c));
    AgreeSettles(p.steps, p.verdicts);
    if w'.pass.Some? {
      i := PassStops(plan, w', c);
      LaterStepsUntouched(plan, w, c, i);
    } else {
      i := |p.verdicts|;
      if i < |plan| {
        assert MarkSound(plan, p.steps, i);
      } else {
        FirstSevereMeaning(Counting(p.verdicts, plan));
      }
    }
  }

  lemma {:induction false} OnlyTheseAgain(kids: Kids, again: seq<Try>, t: Try)
    requires t in CreateAgain(kids, again)
    ensures t in kids || t in again
    decreases |again|
  {
    if again != [] {
      OnlyTheseAgain(Create(kids, again[0]), again[1..], t);
    }
  }

  lemma RetriesAreNumbered(plan: Plan, p: Pass, m: nat)
    requires |p.verdicts| < |plan| && m <= |Gathers(plan, p).again|
    ensures forall t {:trigger t in Gathers(plan, p).again[..m]} :: t in Gathers(plan, p).again[..m] ==> t.attempt > 0
  {
    AgainIsOk(plan, p.view, |p.verdicts|, |plan[|p.verdicts|].expected|);
    forall t | t in Gathers(plan, p).again[..m] ensures t.attempt > 0 {
      assert t in Gathers(plan, p).again;
    }
  }

  /** A first try is made only once its step's delay is over. */
  lemma {:induction false} MadeAfterTheDelay(plan: Plan, w: World, c: Clock, t: Try)
    requires Ready(plan, w) && ClockFits(plan, c)
    requires t !in w.kids && t in Driven(plan, w, c).kids && t.attempt == 0
    ensures t.step < |plan| && !c.delayed[t.step]
    decreases Remaining(plan, w)
  {
    if w.pass.Some? {
      ChoiceIsReady(plan, w, c);
      var p, e := w.pass.value, Choice(plan, w, c);
      var w' := After(plan, w, e);
      if t !in w'.kids {
        MadeAfterTheDelay(plan, w', c, t);
      } else if e.Ensure? {
        CreateFirstAt(w.kids, |p.verdicts|, FirstTries(plan, p)[..e.m], t);
      } else if e.Wait? {
        RetriesAreNumbered(plan, p, e.m);
        OnlyTheseAgain(w.kids, Gathers(plan, p).again[..e.m], t);
      }
    }
  }

  /** A pass takes up the run as it is. */
  function Taken(w: World): World
    requires w.history != []
  {
    if Now(w).phase == Running then w.(pass := Some(Pass(|w.history| - 1, Now(w).steps, [], w.kids, false)))
    else w.(history := w.history + [Now(w).(phase := Running)], pass := Some(Pass(|w.history|, Now(w).steps, [], w.kids, false)))
  }

  // ----- Each thing a pass does -------------------------------------------------------

  /** A pass that has read the latest of the versions h. */
  function At(h: seq<Status>, kids: Kids, late: set<nat>, steps: seq<Mark>, verdicts: seq<Verdict>, view: Kids, gathering: bool): World
    requires h != []
  {
    World(h, kids, Some(Pass(|h| - 1, steps, verdicts, view, gathering)), late)
  }

  /** From w the pass comes to the same end as from start. */
  ghost predicate Along(plan: Plan, start: World, w: World, c: Clock) {
    ClockFits(plan, c) && Ready(plan, start) && Ready(plan, w) && Driven(plan, w, c) == Driven(plan, start, c)
  }

  lemma Goes(plan: Plan, start: World, w: World, c: Clock)
    requires Along(plan, start, w, c) && w.pass.Some?
    ensures Enabled(plan, w, Choice(plan, w, c))
    ensures Along(plan, start, After(plan, w, Choice(plan, w, c)), c)
  {
    ChoiceIsReady(plan, w, c);
  }

  lemma GoesSkipping(plan: Plan, start: World, c: Clock, h: seq<Status>, kids: Kids, late: set<nat>, steps: seq<Mark>,
                     verdicts: seq<Verdict>, view: Kids)
    requires h != [] && |verdicts| < |plan| == |steps| && Along(plan, start, At(h, kids, late, steps, verdicts, view, false), c)
    requires ShouldSkip(verdicts, plan)
    ensures Along(plan, start, At(h, kids, late, steps[|verdicts| := Bypassed], verdicts + [None], view, false), c)
  {
    Goes(plan, start, At(h, kids, late, steps, verdicts, view, false), c);
  }

  lemma GoesRecorded(plan: Plan, start: World, c: Clock, h: seq<Status>, kids: Kids, late: set<nat>, steps: seq<Mark>,
                     verdicts: seq<Verdict>, view: Kids)
    requires h != [] && |verdicts| < |plan| == |steps| && Along(plan, start, At(h, kids, late, steps, verdicts, view, false), c)
    requires !ShouldSkip(verdicts, plan) && steps[|verdicts|].Closed?
    ensures Along(plan, start, At(h, kids, late, steps, verdicts + [Some(steps[|verdicts|].verdict)], view, false), c)
  {
    Goes(plan, start, At(h, kids, late, steps, verdicts, view, false), c);
    assert steps[|verdicts| := steps[|verdicts|]] == steps;
  }

  lemma GoesEnsuring(plan: Plan, start: World, c: Clock, h: seq<Status>, kids: Kids, late: set<nat>, steps: seq<Mark>,
                     verdicts: seq<Verdict>, view: Kids)
    requires h != [] && |verdicts| < |plan| == |steps| && Along(plan, start, At(h, kids, late, steps, verdicts, view, false), c)
    requires !ShouldSkip(verdicts, plan) && !steps[|verdicts|].Closed?
    ensures var i := |verdicts|;
            var kids2 := if c.delayed[i] then kids
                         else CreateFirst(kids, i, ToCreate(view, i, plan[i], 0, |InFlight(view, i)|));
            var view2 := if |InStep(view, i)| < |plan[i].expected| then kids2 else view;
            Along(plan, start, At(h, kids2, late, steps, verdicts, view2, true), c)
  {
    var w := At(h, kids, late, steps, verdicts, view, false);
    Goes(plan, start, w, c);
    AllOrNone(FirstTries(plan, w.pass.value));
  }

  lemma GoesSettling(plan: Plan, start: World, c: Clock, h: seq<Status>, kids: Kids, late: set<nat>, steps: seq<Mark>,
                     verdicts: seq<Verdict>, view: Kids)
    requires h != [] && |verdicts| < |plan| == |steps| && Along(plan, start, At(h, kids, late, steps, verdicts, view, true), c)
    requires Gather(view, |verdicts|, plan[|verdicts|], |plan[|verdicts|].expected|).done
    ensures var i := |verdicts|;
            var v := Aggregate(Gather(view, i, plan[i], |plan[i].expected|).outcomes, plan[i].negative);
            Along(plan, start, At(h, kids, late, steps[i := Closed(v)], verdicts + [Some(v)], view, false), c)
  {
    Goes(plan, start, At(h, kids, late, steps, verdicts, view, true), c);
  }

  lemma GoesWaiting(plan: Plan, start: World, c: Clock, h: seq<Status>, kids: Kids, late: set<nat>, steps: seq<Mark>,
                    verdicts: seq<Verdict>, view: Kids)
    requires h != [] && |verdicts| < |plan| == |steps| && Along(plan, start, At(h, kids, late, steps, verdicts, view, true), c)
    requires !Gather(view, |verdicts|, plan[|verdicts|], |plan[|verdicts|].expected|).done
    requires !(plan[|verdicts|].timeout && c.overdue[|verdicts|] && steps[|verdicts|] != Unmarked)
    ensures var i := |verdicts|;
            var steps2 := if steps[i] == Unmarked then steps[i := Started] else steps;
            var again := Gather(view, i, plan[i], |plan[i].expected|).again;
            Driven(plan, start, c) == World(h + [Status(Running, steps2)], CreateAgain(kids, again), None, late)
  {
    var w := At(h, kids, late, steps, verdicts, view, true);
    AllOrNone(Gathers(plan, w.pass.value).again);
    Goes(plan, start, w, c);
    assert After(plan, w, Choice(plan, w, c)).pass.None?;
  }

  lemma GoesTimingOut(plan: Plan, start: World, c: Clock, h: seq<Status>, kids: Kids, late: set<nat>, steps: seq<Mark>,
                      verdicts: seq<Verdict>, view: Kids)
    requires h != [] && |verdicts| < |plan| == |steps| && Along(plan, start, At(h, kids, late, steps, verdicts, view, true), c)
    requires !Gather(view, |verdicts|, plan[|verdicts|], |plan[|verdicts|].expected|).done
    requires plan[|verdicts|].timeout && c.overdue[|verdicts|] && steps[|verdicts|] != Unmarked
    ensures var i := |verdicts|;
            var again := Gather(view, i, plan[i], |plan[i].expected|).again;
            Along(plan, start, At(h + [Status(Running, steps)], CreateAgain(kids, again), late + {i}, steps[i := Closed(Failed)],
                                  verdicts + [Some(Failed)], view, false), c)
  {
    var w := At(h, kids, late, steps, verdicts, view, true);
    AllOrNone(Gathers(plan, w.pass.value).again);
    Goes(plan, start, w, c);
  }

  lemma GoesFinishing(plan: Plan, start: World, c: Clock, h: seq<Status>, kids: Kids, late: set<nat>, steps: seq<Mark>,
                      verdicts: seq<Verdict>, view: Kids)
    requires h != [] && |verdicts| == |plan| == |steps| && Along(plan, start, At(h, kids, late, steps, verdicts, view, false), c)
    ensures Driven(plan, start, c) == World(h + [Status(ParentPhase(verdicts, plan), steps)], kids, None, late)
  {
    Goes(plan, start, At(h, kids, late, steps, verdicts, view, false), c);
  }

  lemma AllOrNone<T>(s: seq<T>)
    ensures s[..|s|] == s && s[..0] == []
  {}

  // ----- The reconciler itself --------------------------------------------------------

  /** A composite run as the API server holds it: all versions of its status, and its children. */
  class CompositeRun {
    var history: seq<Status>
    var kids: Kids
    var timedOut: set<nat>

    function Server(pass: Option<Pass>): World
      reads this
    {
      World(history, kids, pass, timedOut)
    }

    method EnsureStepChildren(i: nat, s: StepSpec, view: Kids, delayed: bool)
      modifies this`kids
      ensures kids == if delayed then old(kids) else CreateFirst(old(kids), i, ToCreate(view, i, s, 0, |InFlight(view, i)|))
    {
      if delayed {
        return;
      }
      var inFlight: nat := |InFlight(view, i)|;
      var cap := if s.parallelism == 0 then |s.expected| else s.parallelism;
      for k := 0 to |s.expected|
        invariant CreateFirst(kids, i, ToCreate(view, i, s, k, inFlight))
                  == CreateFirst(old(kids), i, ToCreate(view, i, s, 0, |InFlight(view, i)|))
      {
        if inFlight >= cap {
          return;
        }
        var child, _ := LatestAttempt(view, i, s.expected[k], s.retries);
        if child.Some? {
          continue;
        }
        kids := Create(kids, Try(i, s.expected[k], 0));
        inFlight := inFlight + 1;
      }
    }

    method CreateRetries(again: seq<Try>)
      modifies this`kids
      ensures kids == CreateAgain(old(kids), again)
    {
      assert again[0..] == again;
      for k := 0 to |again|
        invariant CreateAgain(kids, again[k..]) == CreateAgain(old(kids), again)
      {
        kids := Create(kids, again[k]);
        assert again[k..][1..] == again[k + 1..];
      }
    }

    /** One pass; the status it writes and the children it makes are those the protocol says. */
    method Reconcile(plan: Plan, c: Clock)
      requires history != [] && !IsTerminal(Now(Server(None)).phase) && |Now(Server(None)).steps| == |plan|
      requires ClockFits(plan, c)
      modifies this
      ensures Ready(plan, Taken(old(Server(None))))
      ensures Server(None) == Driven(plan, Taken(old(Server(None))), c)
    {
      ghost var start := Taken(Server(None));
      var steps := history[|history| - 1].steps;
      if history[|history| - 1].phase != Running {
        history := history + [history[|history| - 1].(phase := Running)];
      }
      var view := kids;
      var verdicts: seq<Verdict> := [];
      for i := 0 to |plan|
        invariant |verdicts| == i && |steps| == |plan| && history != []
        invariant Along(plan, start, At(history, kids, timedOut, steps, verdicts, view, false), c)
      {
        var skip := ShouldSkipStep(verdicts, plan);
        if skip {
          GoesSkipping(plan, start, c, history, kids, timedOut, steps, verdicts, view);
          steps, verdicts := steps[i := Bypassed], verdicts + [None];
          continue;
        }
        if steps[i].Closed? {
          GoesRecorded(plan, start, c, history, kids, timedOut, steps, verdicts, view);
          verdicts := verdicts + [Some(steps[i].verdict)];
          continue;
        }
        var wait;
        steps, verdicts, view, wait := ReconcileStep(plan, c, start, steps, verdicts, view);
        if wait {
          return;
        }
      }
      GoesFinishing(plan, start, c, history, kids, timedOut, steps, verdicts, view);
      var phase := ComputeParentPhase(verdicts, plan);
      history := history + [Status(phase, steps)];
    }

    /** The part of a pass for a step that is open: its children made, looked at, and waited for or aggregated. */
    method ReconcileStep(plan: Plan, c: Clock, ghost start: World, steps: seq<Mark>, verdicts: seq<Verdict>, view: Kids)
      returns (steps': seq<Mark>, verdicts': seq<Verdict>, view': Kids, wait: bool)
      requires history != [] && |verdicts| < |plan| == |steps|
      requires Along(plan, start, At(history, kids, timedOut, steps, verdicts, view, false), c)
      requires !ShouldSkip(verdicts, plan) && !steps[|verdicts|].Closed?
      modifies this
      ensures history != [] && (wait ==> Server(None) == Driven(plan, start, c))
      ensures !wait ==> |verdicts'| == |verdicts| + 1 && |steps'| == |plan|
                        && Along(plan, start, At(history, kids, timedOut, steps', verdicts', view', false), c)
    {
      var i := |verdicts|;
      steps', verdicts', view' := steps, verdicts, view;
      GoesEnsuring(plan, start, c, history, kids, timedOut, steps, verdicts, view);
      EnsureStepChildren(i, plan[i], view, c.delayed[i]);
      if |InStep(view, i)| < |plan[i].expected| {
        view' := kids;
      }
      var outcomes, done, again := GatherOutcomes(view', i, plan[i]);
      ghost var before := kids;
      CreateRetries(again);
      if !done {
        ghost var h := history;
        if steps[i] == Unmarked {
          steps' := steps[i := Started];
        }
        history := history + [Status(Running, steps')];
        if plan[i].timeout && c.overdue[i] && steps[i] != Unmarked {
          GoesTimingOut(plan, start, c, h, before, timedOut, steps, verdicts, view');
          timedOut, steps', verdicts' := timedOut + {i}, steps'[i := Closed(Failed)], verdicts + [Some(Failed)];
          return steps', verdicts', view', false;
        }
        GoesWaiting(plan, start, c, h, before, timedOut, steps, verdicts, view');
        return steps', verdicts', view', true;
      }
      GoesSettling(plan, start, c, history, kids, timedOut, steps, verdicts, view');
      var v := AggregateChildren(outcomes, plan[i].negative);
      return steps[i := Closed(v)], verdicts + [Some(v)], view', false;
    }
  }
}
