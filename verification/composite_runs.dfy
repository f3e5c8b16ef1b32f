/** What holds over whole runs of the composite protocol. */
module CompositeRuns {
  import opened Bytes
  import opened Phases
  import opened Composite
  import opened CompositeTries
  import opened CompositeProtocol
  import opened CompositeOrder

  ghost predicate Run(plan: Plan, w: World, events: seq<Event>)
    decreases |events|
  {
    events == [] || (Enabled(plan, w, events[0]) && Run(plan, After(plan, w, events[0]), events[1..]))
  }

  ghost function End(plan: Plan, w: World, events: seq<Event>): World
    requires Run(plan, w, events)
    decreases |events|
  {
    if events == [] then w else End(plan, After(plan, w, events[0]), events[1..])
  }

  /** A run that has only just been taken up. */
  function Init(plan: Plan, phase: Phase): World {
    World([Status(phase, seq(|plan|, _ => Unmarked))], map[], None, {})
  }

  // ----- What holds whatever happens --------------------------------------------------

  lemma InitSound(plan: Plan, phase: Phase)
    ensures Sound(plan, Init(plan, phase))
  {
    FollowsItself(Init(plan, phase).history[0].steps);
  }

  lemma {:induction false} RunSound(plan: Plan, w: World, events: seq<Event>)
    requires Sound(plan, w) && Run(plan, w, events)
    ensures Sound(plan, End(plan, w, events))
    decreases |events|
  {
    if events != [] {
      StepSound(plan, w, events[0]);
      RunSound(plan, After(plan, w, events[0]), events[1..]);
    }
  }

  /**
   From one version of the status to a later one a step is only started, then closed: never reopened,
   skipped or judged anew. That holds in every run, with timeouts, old reads, lost and foreign writes.
   */
  lemma VerdictsNeverChange(plan: Plan, phase: Phase, events: seq<Event>, u: nat, v: nat, k: nat)
    requires Run(plan, Init(plan, phase), events)
    requires u <= v < |End(plan, Init(plan, phase), events).history| && k < |plan|
    ensures var h := End(plan, Init(plan, phase), events).history;
            && |h[u].steps| == |h[v].steps| == |plan|
            && (IsSettled(h[u].steps[k]) ==> h[v].steps[k] == h[u].steps[k])
            && (h[u].steps[k] == Started ==> h[v].steps[k] == Started || h[v].steps[k].Closed?)
  {
    InitSound(plan, phase);
    RunSound(plan, Init(plan, phase), events);
    var w := End(plan, Init(plan, phase), events);
    assert Follows(w.history[u].steps, w.history[v].steps);
    assert MarksSound(plan, w.history[u].steps);
    assert Forward(w.history[u].steps[k], w.history[v].steps[k]);
  }

  /** In every version a step that has a mark comes after settled ones, and is bypassed exactly when they call for it. */
  lemma MarksComeInTurn(plan: Plan, phase: Phase, events: seq<Event>, v: nat, k: nat)
    requires Run(plan, Init(plan, phase), events)
    requires v < |End(plan, Init(plan, phase), events).history| && k < |plan|
    ensures var steps := End(plan, Init(plan, phase), events).history[v].steps;
            && |steps| == |plan|
            && (steps[k] != Unmarked ==>
                  && (forall j :: 0 <= j < k ==> IsSettled(steps[j]))
                  && (steps[k] == Bypassed <==> !plan[k].always && exists j :: 0 <= j < k && CallsOff(steps[j], plan[j].optional)))
  {
    InitSound(plan, phase);
    RunSound(plan, Init(plan, phase), events);
    var steps := End(plan, Init(plan, phase), events).history[v].steps;
    assert MarksSound(plan, steps);
    assert MarkSound(plan, steps, k);
    SkipsWhenCalledOff(plan, steps, k);
  }

  /** A step that was aborted or in error, or failed without being optional, calls the later ones off. */
  predicate CallsOff(m: Mark, optional: bool) {
    m == Closed(Aborted) || m == Closed(Error) || (m == Closed(Failed) && !optional)
  }

  lemma SkipsWhenCalledOff(plan: Plan, steps: seq<Mark>, k: nat)
    requires k < |plan| == |steps|
    ensures ShouldSkip(VerdictsOf(steps, k), plan) <==>
            !plan[k].always && exists j :: 0 <= j < k && CallsOff(steps[j], plan[j].optional)
  {
    var prior := VerdictsOf(steps, k);
    forall j | 0 <= j < k
      ensures CallsOff(steps[j], plan[j].optional) <==>
              prior[j].Some? && (Severe(prior[j].value) || (prior[j].value == Failed && !plan[j].optional))
    {
    }
  }

  /** Step k is closed as p and counts for the run. */
  predicate Counts(plan: Plan, steps: seq<Mark>, k: nat, p: Phase)
    requires k < |plan| == |steps|
  {
    steps[k] == Closed(p) && !plan[k].optional
  }

  ghost predicate SomeCounts(plan: Plan, steps: seq<Mark>, p: Phase)
    requires |steps| == |plan|
  {
    exists k :: 0 <= k < |plan| && Counts(plan, steps, k, p)
  }

  /** The first step that counts and was aborted or in error ended as p. */
  ghost predicate FirstBroken(plan: Plan, steps: seq<Mark>, p: Phase)
    requires |steps| == |plan|
  {
    exists k {:trigger Counts(plan, steps, k, p)} :: 0 <= k < |plan| && Counts(plan, steps, k, p)
      && forall j {:trigger plan[j]} :: 0 <= j < k ==> !Counts(plan, steps, j, Aborted) && !Counts(plan, steps, j, Error)
  }

  /**
   The phase of a run whose steps are these: passed when all that count have; failed when
   none that counts was aborted or in error and one failed; else that of the first which was.
   */
  ghost predicate EndsAs(plan: Plan, steps: seq<Mark>, phase: Phase)
    requires |steps| == |plan|
  {
    && phase in {Passed, Failed, Error, Aborted}
    && (phase == Passed <==> forall p {:trigger SomeCounts(plan, steps, p)} :: SomeCounts(plan, steps, p) ==> p == Passed)
    && (phase == Failed <==> !SomeCounts(plan, steps, Aborted) && !SomeCounts(plan, steps, Error) && SomeCounts(plan, steps, Failed))
    && (phase in {Aborted, Error} ==> FirstBroken(plan, steps, phase))
  }

  /** The run ends with every step closed, or skipped because it was called off, and as those that count demand. */
  lemma FinishIsRight(plan: Plan, phase: Phase, events: seq<Event>)
    requires Run(plan, Init(plan, phase), events) && Enabled(plan, End(plan, Init(plan, phase), events), Finish(true))
    ensures var s := Now(After(plan, End(plan, Init(plan, phase), events), Finish(true)));
            && |s.steps| == |plan|
            && (forall k :: 0 <= k < |plan| ==> s.steps[k].Closed? || s.steps[k] == Bypassed)
            && (forall k :: 0 <= k < |plan| ==>
                  (s.steps[k] == Bypassed <==> !plan[k].always && exists j :: 0 <= j < k && CallsOff(s.steps[j], plan[j].optional)))
            && EndsAs(plan, s.steps, s.phase)
  {
    InitSound(plan, phase);
    RunSound(plan, Init(plan, phase), events);
    var w := End(plan, Init(plan, phase), events);
    FinishSettles(plan, w);
    var steps := w.pass.value.steps;
    forall k | 0 <= k < |plan|
      ensures steps[k] == Bypassed <==> !plan[k].always && exists j :: 0 <= j < k && CallsOff(steps[j], plan[j].optional)
      ensures steps[k].Closed? ==> IsTerminal(steps[k].verdict)
    {
      assert IsSettled(steps[k]) && MarkSound(plan, steps, k);
      SkipsWhenCalledOff(plan, steps, k);
    }
    ParentEnds(plan, steps);
  }

  lemma FinishSettles(plan: Plan, w: World)
    requires Sound(plan, w) && Enabled(plan, w, Finish(true))
    ensures var p := w.pass.value;
            && VerdictsOf(p.steps, |plan|) == p.verdicts
            && (forall k :: 0 <= k < |plan| ==> IsSettled(p.steps[k]))
            && SkippedRight(p.verdicts, plan)
            && IsTerminal(ParentPhase(p.verdicts, plan))
  {
    var p := w.pass.value;
    AgreeSettles(p.steps, p.verdicts);
    forall k | 0 <= k < |plan| ensures p.verdicts[k].None? <==> ShouldSkip(p.verdicts[..k], plan) {
      assert MarkSound(plan, p.steps, k) && p.steps[k] == MarkOf(p.verdicts[k]);
      assert VerdictsOf(p.steps, k) == p.verdicts[..k];
    }
    FirstSevereMeaning(Counting(p.verdicts, plan));
  }

  /** Step k counts with the verdict v, and no step before it counts with a severe one. */
  ghost predicate IsFirstSevere(plan: Plan, verdicts: seq<Verdict>, v: Phase, k: nat)
    requires |verdicts| <= |plan|
  {
    && k < |verdicts| && verdicts[k] == Some(v) && !plan[k].optional
    && forall j {:trigger verdicts[j]} :: 0 <= j < k && verdicts[j].Some? && !plan[j].optional ==> !Severe(verdicts[j].value)
  }

  /** What comes later does not change that. */
  lemma StaysFirstSevere(plan: Plan, verdicts: seq<Verdict>, n: nat, v: Phase, k: nat)
    requires n <= |verdicts| <= |plan| && IsFirstSevere(plan, verdicts[..n], v, k)
    ensures IsFirstSevere(plan, verdicts, v, k)
  {
    assert forall j {:trigger verdicts[j]} :: 0 <= j < n ==> verdicts[j] == verdicts[..n][j];
  }

  /** With no severe verdict among those that count, no step before the last counts with one. */
  lemma NoneSevere(plan: Plan, verdicts: seq<Verdict>)
    requires |verdicts| <= |plan| && FirstSevere(Counting(verdicts, plan)).None?
    ensures forall j {:trigger verdicts[j]} :: 0 <= j < |verdicts| && verdicts[j].Some? && !plan[j].optional ==> !Severe(verdicts[j].value)
  {
    FirstSevereMeaning(Counting(verdicts, plan));
    forall j | 0 <= j < |verdicts| && verdicts[j].Some? && !plan[j].optional ensures !Severe(verdicts[j].value) {
      CountingMeaning(verdicts, plan, verdicts[j].value);
    }
  }

  /** The first severe verdict that counts is that of the first step that counts and ended so. */
  lemma {:induction false} FirstSevereCounts(plan: Plan, verdicts: seq<Verdict>) returns (k: nat)
    requires |verdicts| <= |plan| && FirstSevere(Counting(verdicts, plan)).Some?
    ensures IsFirstSevere(plan, verdicts, FirstSevere(Counting(verdicts, plan)).value, k)
    decreases |verdicts|
  {
    var i := |verdicts| - 1;
    var before := verdicts[..i];
    if verdicts[i].Some? && !plan[i].optional {
      FirstSevereSnoc(Counting(before, plan), verdicts[i].value);
    } else {
      ConcatEmpty(Counting(before, plan));
    }
    if FirstSevere(Counting(before, plan)).Some? {
      k := FirstSevereCounts(plan, before);
      StaysFirstSevere(plan, verdicts, i, FirstSevere(Counting(verdicts, plan)).value, k);
    } else {
      k := i;
      NoneSevere(plan, before);
      assert forall j {:trigger verdicts[j]} :: 0 <= j < i ==> verdicts[j] == before[j];
    }
  }

  lemma CountingIsCounts(plan: Plan, steps: seq<Mark>, p: Phase)
    requires |steps| == |plan|
    ensures p in Counting(VerdictsOf(steps, |plan|), plan) <==> SomeCounts(plan, steps, p)
  {
    var verdicts := VerdictsOf(steps, |plan|);
    CountingMeaning(verdicts, plan, p);
    assert forall k {:trigger verdicts[k]} :: 0 <= k < |plan| ==> (Counts(plan, steps, k, p) <==> verdicts[k] == Some(p) && !plan[k].optional);
  }

  lemma FirstIsBroken(plan: Plan, steps: seq<Mark>)
    requires |steps| == |plan|
    ensures var first := FirstSevere(Counting(VerdictsOf(steps, |plan|), plan));
            first.Some? ==> FirstBroken(plan, steps, first.value)
  {
    var verdicts := VerdictsOf(steps, |plan|);
    var first := FirstSevere(Counting(verdicts, plan));
    if first.Some? {
      var k := FirstSevereCounts(plan, verdicts);
      assert Counts(plan, steps, k, first.value);
      forall j | 0 <= j < k ensures !Counts(plan, steps, j, Aborted) && !Counts(plan, steps, j, Error) {
        assert verdicts[j] == if steps[j].Closed? then Some(steps[j].verdict) else None;
      }
    }
  }

  lemma ParentEnds(plan: Plan, steps: seq<Mark>)
    requires |steps| == |plan| && forall k :: 0 <= k < |plan| && steps[k].Closed? ==> IsTerminal(steps[k].verdict)
    ensures EndsAs(plan, steps, ParentPhase(VerdictsOf(steps, |plan|), plan))
  {
    FirstSevereMeaning(Counting(VerdictsOf(steps, |plan|), plan));
    FirstIsBroken(plan, steps);
    forall p: Phase
      ensures p in Counting(VerdictsOf(steps, |plan|), plan) <==> SomeCounts(plan, steps, p)
      ensures SomeCounts(plan, steps, p) ==> IsTerminal(p)
    {
      CountingIsCounts(plan, steps, p);
    }
  }

  // ----- Order ------------------------------------------------------------------------

  ghost predicate AllAllowed(plan: Plan, w: World, events: seq<Event>, calm: bool, h: nat)
    requires Run(plan, w, events)
    decreases |events|
  {
    events == []
    || (Allowed(plan, w, events[0], calm, h) && AllAllowed(plan, After(plan, w, events[0]), events[1..], calm, h))
  }

  lemma InitOk(plan: Plan, phase: Phase, calm: bool, h: nat)
    requires calm ==> h == |plan|
    ensures Inv(plan, Init(plan, phase), h) && Regime(plan, Init(plan, phase), calm, h)
  {
    InitSound(plan, phase);
    var steps := Init(plan, phase).history[0].steps;
    assert forall k {:trigger Busy(map[], steps, k)} :: 0 <= k < |steps| ==> !Busy(map[], steps, k);
  }

  lemma {:induction false} RunKeeps(plan: Plan, w: World, events: seq<Event>, calm: bool, h: nat)
    requires Inv(plan, w, h) && Regime(plan, w, calm, h) && Run(plan, w, events) && AllAllowed(plan, w, events, calm, h)
    ensures Inv(plan, End(plan, w, events), h) && Regime(plan, End(plan, w, events), calm, h)
    decreases |events|
  {
    if events != [] {
      StepKeeps(plan, w, events[0], calm, h);
      RunKeeps(plan, After(plan, w, events[0]), events[1..], calm, h);
    }
  }

  /** The verdict v of step j is recorded, or it is what the step's settled children come to. */
  predicate Justified(plan: Plan, w: World, j: nat, v: Phase)
    requires j < |plan| && w.history != []
  {
    || (j < |Current(w)| && Current(w)[j] == Closed(v))
    || (var g := Gather(w.kids, j, plan[j], |plan[j].expected|); g.done && v == Aggregate(g.outcomes, plan[j].negative))
  }

  /** Verdicts for the steps before k, each recorded or settled, that skip those to be skipped, but not k. */
  ghost predicate LeadsTo(plan: Plan, w: World, prior: seq<Verdict>, k: nat)
    requires k < |plan| && w.history != []
  {
    && |prior| == k && SkippedRight(prior, plan) && !ShouldSkip(prior, plan)
    && forall j {:trigger prior[j]} :: 0 <= j < k && prior[j].Some? ==> Justified(plan, w, j, prior[j].value)
  }

  /** A child of a step up to h exists only where every earlier step is skipped or settled, in a way that does not skip this one. */
  ghost predicate InOrder(plan: Plan, w: World, h: nat)
    requires w.history != []
  {
    forall t {:trigger t in w.kids} :: t in w.kids && t.step <= h ==> t.step < |plan| && exists prior :: LeadsTo(plan, w, prior, t.step)
  }

  /** No step up to h that has a child is marked as skipped, in any version of the status or by the pass at work. */
  ghost predicate NoneSkipped(plan: Plan, w: World, h: nat)
    requires w.history != []
  {
    forall t {:trigger t in w.kids} :: t in w.kids && t.step <= h ==>
      && (t.step < |Current(w)| ==> Current(w)[t.step] != Bypassed)
      && forall v {:trigger w.history[v]} :: 0 <= v < |w.history| && t.step < |w.history[v].steps| ==> w.history[v].steps[t.step] != Bypassed
  }

  ghost predicate Orderly(plan: Plan, w: World, h: nat) {
    w.history != [] && InOrder(plan, w, h) && NoneSkipped(plan, w, h)
  }

  lemma DecidedAt(plan: Plan, w: World, n: nat, j: nat)
    requires j < n <= |plan| && Decided(plan, w.kids, w.timedOut, n).Some?
    ensures var v := Decided(plan, w.kids, w.timedOut, n).value[j];
            v.Some? ==>
              if j in w.timedOut then v.value == Failed
              else var g := Gather(w.kids, j, plan[j], |plan[j].expected|); g.done && v.value == Aggregate(g.outcomes, plan[j].negative)
  {
    DecidedPrefix(plan, w.kids, w.timedOut, j + 1, n);
    var all := Decided(plan, w.kids, w.timedOut, n).value;
    assert all[..j + 1][j] == all[j];
  }

  lemma MarksOfNow(plan: Plan, w: World, h: nat)
    requires Inv(plan, w, h)
    ensures MarksOk(plan, w.kids, w.timedOut, Current(w), h)
  {
    assert MarksOk(plan, w.kids, w.timedOut, Now(w).steps, h);
  }

  lemma DecidedIsJustified(plan: Plan, w: World, calm: bool, k: nat, j: nat, h: nat)
    requires Inv(plan, w, h) && Regime(plan, w, calm, h) && j < k < |plan| && k <= h && Reached(plan, w.kids, w.timedOut, k)
    ensures var v := Decided(plan, w.kids, w.timedOut, k).value[j]; v.Some? ==> Justified(plan, w, j, v.value)
  {
    DecidedAt(plan, w, k, j);
    if j in w.timedOut {
      MarksOfNow(plan, w, h);
      assert MarkOk(plan, w.kids, w.timedOut, Current(w)[j], j, h);
      DecidedPrefix(plan, w.kids, w.timedOut, j + 1, k);
      var all := Decided(plan, w.kids, w.timedOut, k).value;
      assert all[..j + 1][j] == all[j];
    }
  }

  lemma InvIsOrderly(plan: Plan, w: World, calm: bool, h: nat)
    requires Inv(plan, w, h) && Regime(plan, w, calm, h)
    ensures Orderly(plan, w, h)
  {
    forall t | t in w.kids && t.step <= h ensures t.step < |plan| && exists prior :: LeadsTo(plan, w, prior, t.step) {
      assert Reached(plan, w.kids, w.timedOut, t.step);
      var prior := Decided(plan, w.kids, w.timedOut, t.step).value;
      DecidedSkips(plan, w.kids, w.timedOut, t.step);
      forall j | 0 <= j < t.step && prior[j].Some? ensures Justified(plan, w, j, prior[j].value) {
        DecidedIsJustified(plan, w, calm, t.step, j, h);
      }
      assert LeadsTo(plan, w, prior, t.step);
    }
    MarksOfNow(plan, w, h);
    forall t | t in w.kids && t.step <= h
      ensures t.step < |Current(w)| ==> Current(w)[t.step] != Bypassed
      ensures forall v {:trigger w.history[v]} :: 0 <= v < |w.history| && t.step < |w.history[v].steps| ==> w.history[v].steps[t.step] != Bypassed
    {
      assert Reached(plan, w.kids, w.timedOut, t.step);
      assert MarkOk(plan, w.kids, w.timedOut, Current(w)[t.step], t.step, h);
      forall v | 0 <= v < |w.history| ensures w.history[v].steps[t.step] != Bypassed {
        assert MarksOk(plan, w.kids, w.timedOut, w.history[v].steps, h);
        assert MarkOk(plan, w.kids, w.timedOut, w.history[v].steps[t.step], t.step, h);
      }
    }
  }

  /** No step before step h has a timeout. */
  predicate NoTimeoutBefore(plan: Plan, h: nat) {
    forall k {:trigger plan[k].timeout} :: 0 <= k < |plan| && k < h ==> !plan[k].timeout
  }

  lemma {:induction false} WithoutTimeouts(plan: Plan, w: World, events: seq<Event>, h: nat)
    requires NoTimeoutBefore(plan, h) && Run(plan, w, events)
    ensures AllAllowed(plan, w, events, false, h)
    decreases |events|
  {
    if events != [] {
      WithoutTimeouts(plan, After(plan, w, events[0]), events[1..], h);
    }
  }

  /**
   In every run the children of the steps up to h come in turn, and none of these steps is skipped once it
   has a child, if no step before h has a timeout.
   */
  lemma RunsAreOrderly(plan: Plan, phase: Phase, events: seq<Event>, h: nat)
    requires NoTimeoutBefore(plan, h) && Run(plan, Init(plan, phase), events)
    ensures Orderly(plan, End(plan, Init(plan, phase), events), h)
  {
    InitOk(plan, phase, false, h);
    WithoutTimeouts(plan, Init(plan, phase), events, h);
    RunKeeps(plan, Init(plan, phase), events, false, h);
    InvIsOrderly(plan, End(plan, Init(plan, phase), events), false, h);
  }

  /** With timeouts anywhere, that holds in the runs whose passes read the latest status and lose no decision. */
  lemma CalmRunsAreOrderly(plan: Plan, phase: Phase, events: seq<Event>)
    requires Run(plan, Init(plan, phase), events) && AllAllowed(plan, Init(plan, phase), events, true, |plan|)
    ensures Orderly(plan, End(plan, Init(plan, phase), events), |plan|)
  {
    InitOk(plan, phase, true, |plan|);
    RunKeeps(plan, Init(plan, phase), events, true, |plan|);
    InvIsOrderly(plan, End(plan, Init(plan, phase), events), true, |plan|);
  }

  // ----- Parallelism ------------------------------------------------------------------

  /** A child has at most one try in flight. */
  lemma OneTryAtATime(plan: Plan, kids: Kids, t: Try, u: Try)
    requires WellTried(plan, kids) && t in kids && u in kids && t.step == u.step && t.child == u.child
    requires !IsTerminal(kids[t]) && !IsTerminal(kids[u])
    ensures t == u
  {
    if t.attempt < u.attempt {
      NoGap(plan, kids, u, t.attempt);
    } else if u.attempt < t.attempt {
      NoGap(plan, kids, t, u.attempt);
    }
  }

  /** The children a step expects, each once. */
  function Children(s: StepSpec): set<Child> {
    set e | e in s.expected
  }

  function ChildrenOf(ts: set<Try>): set<Child> {
    set t | t in ts :: t.child
  }

  lemma {:induction false} OneEach(ts: set<Try>)
    requires forall t, u {:trigger t in ts, u in ts} :: t in ts && u in ts && t.child == u.child ==> t == u
    ensures |ts| <= |ChildrenOf(ts)|
    decreases ts
  {
    if ts != {} {
      var x :| x in ts;
      var rest := ts - {x};
      OneEach(rest);
      assert x.child !in ChildrenOf(rest);
      assert ChildrenOf(ts) == ChildrenOf(rest) + {x.child};
    }
  }

  /** At most one try of each expected child is in flight. */
  lemma FlightWithinChildren(plan: Plan, kids: Kids, k: nat)
    requires WellTried(plan, kids) && k < |plan|
    ensures |InFlight(kids, k)| <= |Children(plan[k])|
  {
    var ts := InFlight(kids, k);
    forall t, u | t in ts && u in ts && t.child == u.child ensures t == u {
      OneTryAtATime(plan, kids, t, u);
    }
    OneEach(ts);
    forall e | e in ChildrenOf(ts) ensures e in Children(plan[k]) {
      var t :| t in ts && t.child == e;
      assert TryOk(plan, kids, t);
    }
    SubsetSize(ChildrenOf(ts), Children(plan[k]));
  }

  /** The children of step k are the first n that it expects. */
  ghost predicate MadeUpTo(kids: Kids, s: StepSpec, k: nat, n: nat) {
    && n <= |s.expected|
    && (forall a {:trigger s.expected[a]} :: 0 <= a < n ==> Try(k, s.expected[a], 0) in kids)
    && (forall t {:trigger t in kids} :: t in kids && t.step == k ==> t.child in s.expected[..n])
  }

  ghost predicate CapOk(kids: Kids, s: StepSpec, k: nat) {
    |InFlight(kids, k)| <= Cap(s) && exists n :: MadeUpTo(kids, s, k, n)
  }

  ghost predicate WithinCap(plan: Plan, kids: Kids) {
    forall k {:trigger CapOk(kids, plan[k], k)} :: 0 <= k < |plan| && plan[k].retries == 0 ==> CapOk(kids, plan[k], k)
  }

  ghost predicate CapInv(plan: Plan, w: World) {
    Sound(plan, w) && WithinCap(plan, w.kids)
  }

  /** Where no child of the step is new and none goes back to work, the cap stays kept. */
  lemma CapStays(kids: Kids, kids2: Kids, s: StepSpec, k: nat)
    requires CapOk(kids, s, k)
    requires forall t: Try {:trigger t in kids2} :: t.step == k ==> (t in kids2 <==> t in kids)
    requires forall t {:trigger t in kids2} :: t in kids2 && t.step == k && !IsTerminal(kids2[t]) ==> !IsTerminal(kids[t])
    ensures CapOk(kids2, s, k)
  {
    forall t | t in InFlight(kids2, k) ensures t in InFlight(kids, k) {
      assert t in kids2;
    }
    SubsetSize(InFlight(kids2, k), InFlight(kids, k));
    var n :| MadeUpTo(kids, s, k, n);
    forall i | 0 <= i < n ensures Try(k, s.expected[i], 0) in kids2 {
      assert Try(k, s.expected[i], 0) in kids;
    }
    assert MadeUpTo(kids2, s, k, n);
  }

  lemma {:induction false} CreateAgainAt(kids: Kids, i: nat, again: seq<Try>, t: Try)
    requires t.step != i && forall u {:trigger u in again} :: u in again ==> u.step == i
    ensures t in CreateAgain(kids, again) <==> t in kids
    ensures t in kids ==> CreateAgain(kids, again)[t] == kids[t]
    decreases |again|
  {
    if again != [] {
      assert again[0] in again;
      assert forall u {:trigger u in again[1..]} :: u in again[1..] ==> u in again;
      CreateAgainAt(Create(kids, again[0]), i, again[1..], t);
    }
  }

  /** The first m that are made are, with those the listing shows, all that are expected up to some number. */
  lemma {:induction false} ToCreateReaches(view: Kids, i: nat, s: StepSpec, k: nat, inFlight: nat, m: nat) returns (n: nat)
    requires k <= |s.expected| && m <= |ToCreate(view, i, s, k, inFlight)|
    ensures k <= n <= |s.expected| && (m == 0 ==> n == k)
    ensures var made := ToCreate(view, i, s, k, inFlight)[..m];
            && (forall e {:trigger e in made} :: e in made ==> e in s.expected[..n])
            && (forall a {:trigger s.expected[a]} :: k <= a < n ==> Latest(view, i, s.expected[a], s.retries).Some? || s.expected[a] in made)
    decreases |s.expected| - k
  {
    if m == 0 {
      return k;
    }
    var all := ToCreate(view, i, s, k, inFlight);
    if Latest(view, i, s.expected[k], s.retries).Some? {
      n := ToCreateReaches(view, i, s, k + 1, inFlight, m);
    } else {
      var rest := ToCreate(view, i, s, k + 1, inFlight + 1);
      n := ToCreateReaches(view, i, s, k + 1, inFlight + 1, m - 1);
      assert all == [s.expected[k]] + rest;
      assert all[..m] == [s.expected[k]] + rest[..m - 1];
      assert s.expected[..n][k] == s.expected[k];
    }
  }

  function TriesFor(i: nat, children: seq<Child>): set<Try> {
    set e | e in children :: Try(i, e, 0)
  }

  lemma {:induction false} TriesForSize(i: nat, children: seq<Child>)
    ensures |TriesFor(i, children)| <= |children|
  {
    if children == [] {
      assert TriesFor(i, children) == {};
    } else {
      var rest := children[1..];
      TriesForSize(i, rest);
      assert children == [children[0]] + rest;
      assert TriesFor(i, children) == TriesFor(i, rest) + {Try(i, children[0], 0)};
    }
  }

  /** What is in flight afterwards the listing showed in flight, or it did not show it and it was made, now or before. */
  lemma FlightIsSeenOrMade(plan: Plan, view: Kids, kids: Kids, i: nat, made: seq<Child>, n: nat)
    requires i < |plan| && plan[i].retries == 0 && WellTried(plan, kids) && Grows(view, kids) && n <= |plan[i].expected|
    requires forall a {:trigger plan[i].expected[a]} :: 0 <= a < n ==> Latest(view, i, plan[i].expected[a], 0).Some? || plan[i].expected[a] in made
    requires forall t {:trigger t in kids} :: t in kids && t.step == i ==> t.child in plan[i].expected[..n]
    ensures InFlight(CreateFirst(kids, i, made), i) <= InFlight(view, i) + TriesFor(i, made)
  {
    CreateFirstIs(kids, i, made);
    var kids2 := CreateFirst(kids, i, made);
    forall t | t in InFlight(kids2, i) ensures t in InFlight(view, i) + TriesFor(i, made) {
      if t in kids {
        assert TryOk(plan, kids, t);
        assert t == Try(i, t.child, 0);
        var a :| 0 <= a < n && plan[i].expected[a] == t.child;
        if t.child !in made {
          assert Latest(view, i, t.child, 0).Some?;
          assert t in view;
        }
      }
    }
  }

  /** First tries made from a listing that lacks some children stay within the cap: those it lacks come first. */
  lemma EnsureStaysWithin(plan: Plan, view: Kids, kids: Kids, i: nat, m: nat)
    requires i < |plan| && plan[i].retries == 0 && WellTried(plan, kids) && Grows(view, kids) && CapOk(kids, plan[i], i)
    requires m <= |ToCreate(view, i, plan[i], 0, |InFlight(view, i)|)|
    ensures CapOk(CreateFirst(kids, i, ToCreate(view, i, plan[i], 0, |InFlight(view, i)|)[..m]), plan[i], i)
  {
    var s := plan[i];
    var all := ToCreate(view, i, s, 0, |InFlight(view, i)|);
    var made := all[..m];
    var kids2 := CreateFirst(kids, i, made);
    CreateFirstIs(kids, i, made);
    var before :| MadeUpTo(kids, s, i, before);
    var n := ToCreateReaches(view, i, s, 0, |InFlight(view, i)|, m);
    if n <= before {
      NothingNew(kids, s, i, made, before, n);
      CapStays(kids, kids2, s, i);
    } else {
      ToCreateExpected(view, i, s, 0, |InFlight(view, i)|);
      FlightIsSeenOrMade(plan, view, kids, i, made, n);
      TriesForSize(i, made);
      UnionSize(InFlight(view, i), TriesFor(i, made));
      SubsetSize(InFlight(kids2, i), InFlight(view, i) + TriesFor(i, made));
      MadeFurther(view, kids, s, i, made, before, n);
    }
  }

  lemma NothingNew(kids: Kids, s: StepSpec, i: nat, made: seq<Child>, before: nat, n: nat)
    requires MadeUpTo(kids, s, i, before) && n <= before
    requires forall e {:trigger e in made} :: e in made ==> e in s.expected[..n]
    ensures forall t {:trigger t in CreateFirst(kids, i, made)} :: t in CreateFirst(kids, i, made) <==> t in kids
    ensures forall t {:trigger t in CreateFirst(kids, i, made)} :: t in kids ==> CreateFirst(kids, i, made)[t] == kids[t]
  {
    CreateFirstIs(kids, i, made);
    forall e | e in made ensures Try(i, e, 0) in kids {
      var a :| 0 <= a < n && s.expected[a] == e;
    }
    forall t: Try ensures t in CreateFirst(kids, i, made) <==> t in kids {
      assert t.step == i && t.attempt == 0 ==> t == Try(i, t.child, 0);
    }
  }

  lemma MadeFurther(view: Kids, kids: Kids, s: StepSpec, i: nat, made: seq<Child>, before: nat, n: nat)
    requires MadeUpTo(kids, s, i, before) && before <= n <= |s.expected| && Grows(view, kids) && s.retries == 0
    requires forall e {:trigger e in made} :: e in made ==> e in s.expected[..n]
    requires forall a {:trigger s.expected[a]} :: 0 <= a < n ==> Latest(view, i, s.expected[a], 0).Some? || s.expected[a] in made
    ensures MadeUpTo(CreateFirst(kids, i, made), s, i, n)
  {
    CreateFirstIs(kids, i, made);
    var kids2 := CreateFirst(kids, i, made);
    forall a | 0 <= a < n ensures Try(i, s.expected[a], 0) in kids2 {
      if s.expected[a] !in made {
        assert Try(i, s.expected[a], 0) in view;
      }
    }
    forall t | t in kids2 && t.step == i ensures t.child in s.expected[..n] {
      if t in kids {
        var a :| 0 <= a < before && s.expected[a] == t.child;
        assert s.expected[..n][a] == t.child;
      }
    }
  }

  lemma EnsureWithinCap(plan: Plan, w: World, e: Event)
    requires CapInv(plan, w) && e.Ensure? && Enabled(plan, w, e)
    ensures WithinCap(plan, After(plan, w, e).kids)
  {
    var p := w.pass.value;
    var i := |p.verdicts|;
    CreateFirstIs(w.kids, i, FirstTries(plan, p)[..e.m]);
    forall k | 0 <= k < |plan| && plan[k].retries == 0 ensures CapOk(Ensured(plan, w, e.m), plan[k], k) {
      assert CapOk(w.kids, plan[k], k);
      if k == i {
        EnsureStaysWithin(plan, p.view, w.kids, i, e.m);
      } else {
        CapStays(w.kids, Ensured(plan, w, e.m), plan[k], k);
      }
    }
  }

  lemma WaitWithinCap(plan: Plan, w: World, e: Event)
    requires CapInv(plan, w) && e.Wait? && Enabled(plan, w, e)
    ensures WithinCap(plan, After(plan, w, e).kids)
  {
    var p := w.pass.value;
    var i := |p.verdicts|;
    var all := Gathers(plan, p).again;
    var again := all[..e.m];
    AgainIsOk(plan, p.view, i, |plan[i].expected|);
    forall t | t in again ensures t.step == i && plan[i].retries > 0 {
      assert t in all;
      assert RetryOk(plan, p.view, i, t);
    }
    assert again != [] ==> again[0] in again;
    var kids := After(plan, w, e).kids;
    forall k | 0 <= k < |plan| && plan[k].retries == 0 ensures CapOk(kids, plan[k], k) {
      assert CapOk(w.kids, plan[k], k);
      if k != i {
        forall t: Try | t.step == k ensures (t in kids <==> t in w.kids) && (t in kids ==> kids[t] == w.kids[t]) {
          CreateAgainAt(w.kids, i, again, t);
        }
        CapStays(w.kids, kids, plan[k], k);
      }
    }
  }

  lemma StepWithinCap(plan: Plan, w: World, e: Event)
    requires CapInv(plan, w) && Enabled(plan, w, e)
    ensures CapInv(plan, After(plan, w, e))
  {
    StepSound(plan, w, e);
    match e
    case Ensure(_, _) => EnsureWithinCap(plan, w, e);
    case Wait(_, _) => WaitWithinCap(plan, w, e);
    case KidMoves(t, phase) =>
      var kids := w.kids[t := phase];
      forall k | 0 <= k < |plan| && plan[k].retries == 0 ensures CapOk(kids, plan[k], k) {
        assert CapOk(w.kids, plan[k], k);
        CapStays(w.kids, kids, plan[k], k);
      }
    case _ =>
  }

  lemma {:induction false} RunWithinCap(plan: Plan, w: World, events: seq<Event>)
    requires CapInv(plan, w) && Run(plan, w, events)
    ensures CapInv(plan, End(plan, w, events))
    decreases |events|
  {
    if events != [] {
      StepWithinCap(plan, w, events[0]);
      RunWithinCap(plan, After(plan, w, events[0]), events[1..]);
    }
  }

  lemma InitWithin(plan: Plan, phase: Phase)
    ensures CapInv(plan, Init(plan, phase))
  {
    InitSound(plan, phase);
    forall k | 0 <= k < |plan| ensures CapOk(map[], plan[k], k) {
      assert InFlight(map[], k) == {};
      assert MadeUpTo(map[], plan[k], k, 0);
    }
  }

  /** Without retries, or without a cap, or with no more children to make than the cap allows. */
  predicate CapIsSafe(s: StepSpec) {
    s.retries == 0 || s.parallelism == 0 || |set e | e in s.expected| <= s.parallelism
  }

  /** No more tries of step k are unfinished than its parallelism, or if it has none, its number of children. */
  predicate AtWorkWithin(kids: Kids, s: StepSpec, k: nat) {
    |set t | t in kids && t.step == k && kids[t] !in {Passed, Failed, Error, Aborted}|
    <= if s.parallelism == 0 then |s.expected| else s.parallelism
  }

  lemma {:induction false} ChildrenFit(s: StepSpec)
    ensures |Children(s)| <= |s.expected|
    decreases |s.expected|
  {
    if s.expected != [] {
      var n := |s.expected| - 1;
      var fewer := s.(expected := s.expected[..n]);
      ChildrenFit(fewer);
      assert s.expected == s.expected[..n] + [s.expected[n]];
      assert Children(s) == Children(fewer) + {s.expected[n]};
    }
  }

  lemma CapMeaning(kids: Kids, s: StepSpec, k: nat)
    ensures CapIsSafe(s) <==> s.retries == 0 || |Children(s)| <= Cap(s)
    ensures AtWorkWithin(kids, s, k) <==> |InFlight(kids, k)| <= Cap(s)
  {
    ChildrenFit(s);
    assert InFlight(kids, k) == set t | t in kids && t.step == k && kids[t] !in {Passed, Failed, Error, Aborted};
  }

  /** Of such a step no more children are in flight than its parallelism, in every run, however old its listings are. */
  lemma ParallelismHolds(plan: Plan, phase: Phase, events: seq<Event>, k: nat)
    requires Run(plan, Init(plan, phase), events) && k < |plan| && CapIsSafe(plan[k])
    ensures AtWorkWithin(End(plan, Init(plan, phase), events).kids, plan[k], k)
  {
    InitWithin(plan, phase);
    RunWithinCap(plan, Init(plan, phase), events);
    var w := End(plan, Init(plan, phase), events);
    CapMeaning(w.kids, plan[k], k);
    if plan[k].retries == 0 {
      assert CapOk(w.kids, plan[k], k);
    } else {
      FlightWithinChildren(plan, w.kids, k);
    }
  }
}
