/**
 What the verdicts of a composite run say of its children and steps, in every run: which
 children are tried again, what a step comes to, what it skips and what the run ends as.
 */
module CompositeVerdicts {
  import opened Bytes
  import opened Phases
  import opened Composite
  import opened CompositeTries
  import opened CompositeProtocol
  import opened CompositeRuns

  // ----- A step's children ------------------------------------------------------------

  /** Try n is the newest that child e has. */
  ghost predicate Newest(kids: Kids, k: nat, e: Child, retries: nat, n: nat) {
    n <= retries && Try(k, e, n) in kids && forall m {:trigger Try(k, e, m)} :: n < m <= retries ==> Try(k, e, m) !in kids
  }

  /** An outcome that is tried again while retries are left. */
  predicate Bad(p: Phase, negative: bool) {
    p == Error || p == if negative then Passed else Failed
  }

  /** Child e has come to p and is not tried again. */
  ghost predicate Final(kids: Kids, k: nat, s: StepSpec, e: Child, p: Phase) {
    && p in {Passed, Failed, Error, Aborted}
    && exists n: nat {:trigger Newest(kids, k, e, s.retries, n)} ::
         Newest(kids, k, e, s.retries, n) && kids[Try(k, e, n)] == p && (n == s.retries || !Bad(p, s.negative))
  }

  ghost predicate HasFinal(kids: Kids, k: nat, s: StepSpec, e: Child) {
    exists p :: Final(kids, k, s, e, p)
  }

  /** t is the next try of a child whose newest one, not the last it may have, ended badly. */
  ghost predicate Again(kids: Kids, k: nat, s: StepSpec, t: Try) {
    t.step == k && 0 < t.attempt <= s.retries
    && Newest(kids, k, t.child, s.retries, t.attempt - 1) && Bad(kids[Try(k, t.child, t.attempt - 1)], s.negative)
  }

  lemma LatestIsNewest(kids: Kids, k: nat, e: Child, retries: nat)
    ensures match Latest(kids, k, e, retries)
            case None => forall n {:trigger Try(k, e, n)} :: 0 <= n <= retries ==> Try(k, e, n) !in kids
            case Some(n) => Newest(kids, k, e, retries, n)
    ensures forall n: nat {:trigger Newest(kids, k, e, retries, n)} ::
              Newest(kids, k, e, retries, n) ==> Latest(kids, k, e, retries) == Some(n)
  {
    forall n: nat | Newest(kids, k, e, retries, n) ensures Latest(kids, k, e, retries) == Some(n) {
      assert Try(k, e, n) in kids;
    }
  }

  /** What is found out about one child. */
  lemma GatherOneMeaning(kids: Kids, k: nat, s: StepSpec, e: Child, g: Gathered)
    ensures var g' := GatherOne(kids, k, s, e, g);
            if HasFinal(kids, k, s, e) then
              g'.done == g.done && g'.again == g.again && |g'.outcomes| == |g.outcomes| + 1 && g.outcomes <= g'.outcomes
              && Final(kids, k, s, e, g'.outcomes[|g.outcomes|])
            else
              !g'.done && g'.outcomes == g.outcomes
    ensures var g' := GatherOne(kids, k, s, e, g);
            forall t {:trigger t in g'.again} :: t in g'.again <==> t in g.again || (t.child == e && Again(kids, k, s, t))
  {
    LatestIsNewest(kids, k, e, s.retries);
    var latest := Latest(kids, k, e, s.retries);
    if latest.Some? {
      var p := kids[Try(k, e, latest.value)];
      assert IsTerminal(p) && (latest.value == s.retries || !Bad(p, s.negative)) ==> Final(kids, k, s, e, p);
    }
  }

  /**
   A step is done exactly when each of its children has come to something and is not tried
   again, and its outcomes are those; the tries to make are the next ones of the others
   whose newest ended badly.
   */
  lemma {:induction false} GatherMeaning(kids: Kids, k: nat, s: StepSpec, j: nat)
    requires j <= |s.expected|
    ensures var g := Gather(kids, k, s, j);
            && (g.done <==> forall a {:trigger s.expected[a]} :: 0 <= a < j ==> HasFinal(kids, k, s, s.expected[a]))
            && (g.done ==> |g.outcomes| == j
                           && forall a {:trigger g.outcomes[a]} :: 0 <= a < j ==> Final(kids, k, s, s.expected[a], g.outcomes[a]))
            && (forall t {:trigger t in g.again} :: t in g.again <==> t.child in s.expected[..j] && Again(kids, k, s, t))
  {
    if j > 0 {
      GatherMeaning(kids, k, s, j - 1);
      var g, e := Gather(kids, k, s, j - 1), s.expected[j - 1];
      GatherOneMeaning(kids, k, s, e, g);
      assert s.expected[..j] == s.expected[..j - 1] + [e];
      assert Gather(kids, k, s, j).done <==> g.done && HasFinal(kids, k, s, e);
    }
  }

  // ----- First tries ------------------------------------------------------------------

  /** The children expected from the k-th on that have no try at all, in order. */
  function Missing(kids: Kids, i: nat, s: StepSpec, k: nat): seq<Child>
    requires k <= |s.expected|
    decreases |s.expected| - k
  {
    if k == |s.expected| then []
    else if exists n :: 0 <= n <= s.retries && Try(i, s.expected[k], n) in kids then Missing(kids, i, s, k + 1)
    else [s.expected[k]] + Missing(kids, i, s, k + 1)
  }

  /** First tries are made for the first of the missing children, as many as the parallelism leaves room for. */
  lemma {:induction false} MakesTheMissing(kids: Kids, i: nat, s: StepSpec, k: nat, inFlight: nat)
    requires k <= |s.expected|
    ensures var cap := if s.parallelism == 0 then |s.expected| else s.parallelism;
            var room := if inFlight < cap then cap - inFlight else 0;
            var missing := Missing(kids, i, s, k);
            ToCreate(kids, i, s, k, inFlight) == if |missing| <= room then missing else missing[..room]
    decreases |s.expected| - k
  {
    if k < |s.expected| {
      var found := exists n :: 0 <= n <= s.retries && Try(i, s.expected[k], n) in kids;
      assert found <==> Latest(kids, i, s.expected[k], s.retries).Some?;
      MakesTheMissing(kids, i, s, k + 1, inFlight);
      MakesTheMissing(kids, i, s, k + 1, inFlight + 1);
    }
  }

  // ----- A step's verdict -------------------------------------------------------------

  /** The step's children have all come to something, and v is what the step comes to. */
  ghost predicate ComesTo(plan: Plan, kids: Kids, k: nat, v: Phase)
    requires k < |plan|
  {
    exists outcomes: seq<Phase> {:trigger StepEnds(outcomes, plan[k].negative, v)} ::
      && |outcomes| == |plan[k].expected|
      && (forall a {:trigger outcomes[a]} :: 0 <= a < |outcomes| ==> Final(kids, k, plan[k], plan[k].expected[a], outcomes[a]))
      && StepEnds(outcomes, plan[k].negative, v)
  }

  /** The same, as a pass finds it. */
  predicate Settled(plan: Plan, kids: Kids, k: nat, v: Phase)
    requires k < |plan|
  {
    var g := Gather(kids, k, plan[k], |plan[k].expected|);
    g.done && v == Aggregate(g.outcomes, plan[k].negative)
  }

  lemma SettledComesTo(plan: Plan, kids: Kids, k: nat, v: Phase)
    requires k < |plan| && Settled(plan, kids, k, v)
    ensures ComesTo(plan, kids, k, v)
  {
    GatherMeaning(kids, k, plan[k], |plan[k].expected|);
    AggregateEnds(Gather(kids, k, plan[k], |plan[k].expected|).outcomes, plan[k].negative);
  }

  // ----- Every run --------------------------------------------------------------------

  /** A closed step has timed out, or is what its children come to. */
  predicate Backed(plan: Plan, kids: Kids, late: set<nat>, m: Mark, k: nat)
    requires k < |plan|
  {
    m.Closed? ==> (k in late && plan[k].timeout && m.verdict == Failed) || Settled(plan, kids, k, m.verdict)
  }

  ghost predicate AllBacked(plan: Plan, kids: Kids, late: set<nat>, steps: seq<Mark>) {
    |steps| == |plan| && forall k {:trigger Backed(plan, kids, late, steps[k], k)} :: 0 <= k < |plan| ==> Backed(plan, kids, late, steps[k], k)
  }

  ghost predicate RunBacked(plan: Plan, w: World) {
    && (forall v {:trigger w.history[v]} :: 0 <= v < |w.history| ==> AllBacked(plan, w.kids, w.timedOut, w.history[v].steps))
    && (w.pass.Some? ==> AllBacked(plan, w.kids, w.timedOut, w.pass.value.steps))
  }

  lemma StaysBacked(plan: Plan, kids: Kids, late: set<nat>, kids': Kids, late': set<nat>, steps: seq<Mark>)
    requires AllBacked(plan, kids, late, steps) && WellTried(plan, kids') && Grows(kids, kids') && late <= late'
    ensures AllBacked(plan, kids', late', steps)
  {
    forall k | 0 <= k < |plan| ensures Backed(plan, kids', late', steps[k], k) {
      assert Backed(plan, kids, late, steps[k], k);
      if steps[k].Closed? && Settled(plan, kids, k, steps[k].verdict) {
        SettledStays(plan, kids, kids', k, |plan[k].expected|);
      }
    }
  }

  lemma MarkBacked(plan: Plan, kids: Kids, late: set<nat>, steps: seq<Mark>, i: nat, m: Mark)
    requires AllBacked(plan, kids, late, steps) && i < |plan| && Backed(plan, kids, late, m, i)
    ensures AllBacked(plan, kids, late, steps[i := m])
  {
    var steps' := steps[i := m];
    forall k | 0 <= k < |plan| ensures Backed(plan, kids, late, steps'[k], k) {
      assert Backed(plan, kids, late, steps[k], k);
    }
  }

  lemma StepGrows(plan: Plan, w: World, e: Event)
    requires Sound(plan, w) && Enabled(plan, w, e)
    ensures Grows(w.kids, After(plan, w, e).kids) && w.timedOut <= After(plan, w, e).timedOut
    ensures w.history <= After(plan, w, e).history
  {
    match e
    case KidMoves(_, _) => MovesSound(plan, w, e);
    case Ensure(_, _) => EnsureSound(plan, w, e);
    case Wait(m, _) => RetriesJoin(plan, w, m);
    case _ =>
  }

  /** The pass's own marks, after it has gone on. */
  lemma PassBacked(plan: Plan, w: World, e: Event)
    requires Sound(plan, w) && RunBacked(plan, w) && Enabled(plan, w, e) && w.pass.Some? && After(plan, w, e).pass.Some?
    ensures var w' := After(plan, w, e); AllBacked(plan, w'.kids, w'.timedOut, w'.pass.value.steps)
  {
    StepSound(plan, w, e);
    StepGrows(plan, w, e);
    var p, w' := w.pass.value, After(plan, w, e);
    StaysBacked(plan, w.kids, w.timedOut, w'.kids, w'.timedOut, p.steps);
    match e
    case Skip => MarkBacked(plan, w'.kids, w'.timedOut, p.steps, |p.verdicts|, Bypassed);
    case TakeRecorded =>
      assert Backed(plan, w'.kids, w'.timedOut, p.steps[|p.verdicts|], |p.verdicts|);
      MarkBacked(plan, w'.kids, w'.timedOut, p.steps, |p.verdicts|, p.steps[|p.verdicts|]);
    case Settle =>
      SettledStays(plan, p.view, w.kids, |p.verdicts|, |plan[|p.verdicts|].expected|);
      MarkBacked(plan, w'.kids, w'.timedOut, p.steps, |p.verdicts|, w'.pass.value.steps[|p.verdicts|]);
    case Wait(_, _) => MarkBacked(plan, w'.kids, w'.timedOut, p.steps, |p.verdicts|, Closed(Failed));
    case _ =>
  }

  lemma StatusBacked(plan: Plan, w: World, e: Event)
    requires Sound(plan, w) && RunBacked(plan, w) && Enabled(plan, w, e)
    requires w.history != After(plan, w, e).history
    ensures var w' := After(plan, w, e); AllBacked(plan, w'.kids, w'.timedOut, Now(w').steps)
  {
    StepSound(plan, w, e);
    StepGrows(plan, w, e);
    var w' := After(plan, w, e);
    if e.Wait? {
      var p := w.pass.value;
      StaysBacked(plan, w.kids, w.timedOut, w'.kids, w'.timedOut, p.steps);
      MarkBacked(plan, w'.kids, w'.timedOut, p.steps, |p.verdicts|, Started);
    }
  }

  lemma StepBacked(plan: Plan, w: World, e: Event)
    requires Sound(plan, w) && RunBacked(plan, w) && Enabled(plan, w, e)
    ensures RunBacked(plan, After(plan, w, e))
  {
    StepSound(plan, w, e);
    StepGrows(plan, w, e);
    var w' := After(plan, w, e);
    forall v | 0 <= v < |w'.history| ensures AllBacked(plan, w'.kids, w'.timedOut, w'.history[v].steps) {
      if v < |w.history| {
        StaysBacked(plan, w.kids, w.timedOut, w'.kids, w'.timedOut, w.history[v].steps);
      } else {
        StatusBacked(plan, w, e);
      }
    }
    if w'.pass.Some? && w.pass.Some? {
      PassBacked(plan, w, e);
    }
  }

  lemma {:induction false} AlwaysBacked(plan: Plan, w: World, events: seq<Event>)
    requires Sound(plan, w) && RunBacked(plan, w) && Run(plan, w, events)
    ensures RunBacked(plan, End(plan, w, events))
    decreases |events|
  {
    if events != [] {
      StepBacked(plan, w, events[0]);
      StepSound(plan, w, events[0]);
      AlwaysBacked(plan, After(plan, w, events[0]), events[1..]);
    }
  }

  /**
   In every run and version a step that is recorded as closed has timed out, and failed, or
   its children have all come to something, and it is closed as that demands.
   */
  lemma ClosedAsItsChildren(plan: Plan, phase: Phase, events: seq<Event>, v: nat, k: nat)
    requires Run(plan, Init(plan, phase), events)
    requires v < |End(plan, Init(plan, phase), events).history| && k < |plan|
    ensures var w := End(plan, Init(plan, phase), events);
            && |w.history[v].steps| == |plan|
            && var m := w.history[v].steps[k];
               m.Closed? ==> (k in w.timedOut && plan[k].timeout && m.verdict == Failed) || ComesTo(plan, w.kids, k, m.verdict)
  {
    InitSound(plan, phase);
    AlwaysBacked(plan, Init(plan, phase), events);
    var w := End(plan, Init(plan, phase), events);
    assert AllBacked(plan, w.kids, w.timedOut, w.history[v].steps);
    var m := w.history[v].steps[k];
    assert Backed(plan, w.kids, w.timedOut, m, k);
    if m.Closed? && Settled(plan, w.kids, k, m.verdict) {
      SettledComesTo(plan, w.kids, k, m.verdict);
    }
  }
}
