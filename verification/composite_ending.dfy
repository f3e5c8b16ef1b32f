/** Why a composite run ends: each pass over children that have all ended makes a new try or ends the run. */
module CompositeEnding {
  import opened Bytes
  import opened Phases
  import opened Composite
  import opened CompositeTries
  import opened CompositeProtocol
  import opened CompositePass

  predicate AllEnded(kids: Kids) {
    forall t {:trigger kids[t]} :: t in kids ==> IsTerminal(kids[t])
  }

  // ----- A pass adds children and changes none -----------------------------------------

  /** All children are as they were; others may have joined them. */
  ghost predicate Adds(a: Kids, b: Kids) {
    forall t {:trigger t in a} :: t in a ==> t in b && b[t] == a[t]
  }

  /** Those that joined have not been looked at. */
  ghost predicate AddsUnset(a: Kids, b: Kids) {
    Adds(a, b) && forall t {:trigger t in b} :: t in b && t !in a ==> b[t] == Unset
  }

  lemma AddsTransitive(a: Kids, b: Kids, c: Kids)
    requires AddsUnset(a, b) && AddsUnset(b, c)
    ensures AddsUnset(a, c)
  {
    forall t | t in a ensures t in c && c[t] == a[t] {
      assert t in b;
    }
    forall t | t in c && t !in a ensures c[t] == Unset {
      assert t in b ==> b[t] == Unset;
    }
  }

  lemma {:induction false} CreateFirstAdds(kids: Kids, i: nat, children: seq<Child>)
    ensures AddsUnset(kids, CreateFirst(kids, i, children))
    decreases |children|
  {
    if children != [] {
      var more := Create(kids, Try(i, children[0], 0));
      CreateFirstAdds(more, i, children[1..]);
      AddsTransitive(kids, more, CreateFirst(kids, i, children));
    }
  }

  lemma {:induction false} CreateAgainAdds(kids: Kids, again: seq<Try>)
    ensures AddsUnset(kids, CreateAgain(kids, again))
    decreases |again|
  {
    if again != [] {
      CreateAgainAdds(Create(kids, again[0]), again[1..]);
      AddsTransitive(kids, Create(kids, again[0]), CreateAgain(kids, again));
    }
  }

  lemma ChoiceAdds(plan: Plan, w: World, c: Clock)
    requires Ready(plan, w) && w.pass.Some? && ClockFits(plan, c)
    ensures Enabled(plan, w, Choice(plan, w, c))
    ensures AddsUnset(w.kids, After(plan, w, Choice(plan, w, c)).kids)
  {
    ChoiceIsReady(plan, w, c);
    var p := w.pass.value;
    var e := Choice(plan, w, c);
    if e.Ensure? {
      CreateFirstAdds(w.kids, |p.verdicts|, FirstTries(plan, p)[..e.m]);
    } else if e.Wait? {
      CreateAgainAdds(w.kids, Gathers(plan, p).again[..e.m]);
    }
  }

  lemma {:induction false} DrivenKeeps(plan: Plan, w: World, c: Clock)
    requires Sound(plan, w) && Ready(plan, w) && ClockFits(plan, c)
    ensures Sound(plan, Driven(plan, w, c))
    ensures AddsUnset(w.kids, Driven(plan, w, c).kids) && Driven(plan, w, c).pass.None?
    decreases Remaining(plan, w)
  {
    if w.pass.Some? {
      var e := Choice(plan, w, c);
      ChoiceIsReady(plan, w, c);
      ChoiceAdds(plan, w, c);
      StepSound(plan, w, e);
      DrivenKeeps(plan, After(plan, w, e), c);
      AddsTransitive(w.kids, After(plan, w, e).kids, Driven(plan, w, c).kids);
    }
  }

  // ----- Something new ----------------------------------------------------------------

  lemma AddsInSize(a: Kids, b: Kids)
    requires Adds(a, b)
    ensures |a| <= |b|
    ensures |a| == |b| ==> a == b
  {
    SubsetSize(a.Keys, b.Keys);
    if exists t :: t in b && t !in a {
      var t :| t in b && t !in a;
      NewTryCounts(a, b, t);
    }
  }

  lemma NewTryCounts(a: Kids, b: Kids, t: Try)
    requires Adds(a, b) && t !in a && t in b
    ensures |a| < |b|
  {
    SubsetSize(a.Keys + {t}, b.Keys);
    assert |a.Keys + {t}| == |a.Keys| + 1;
  }

  lemma {:induction false} CreateAgainStays(kids: Kids, again: seq<Try>, t: Try)
    requires t in kids || (again != [] && t == again[0])
    ensures t in CreateAgain(kids, again)
    decreases |again|
  {
    if again != [] {
      CreateAgainStays(Create(kids, again[0]), again[1..], t);
    }
  }

  /** Only children without any try get a first one. */
  lemma {:induction false} FirstAreNew(kids: Kids, i: nat, s: StepSpec, k: nat, inFlight: nat)
    requires k <= |s.expected|
    ensures forall d {:trigger d in ToCreate(kids, i, s, k, inFlight)} ::
              d in ToCreate(kids, i, s, k, inFlight) ==> Try(i, d, 0) !in kids
    decreases |s.expected| - k
  {
    if k < |s.expected| && inFlight < Cap(s) {
      if Latest(kids, i, s.expected[k], s.retries).Some? {
        FirstAreNew(kids, i, s, k + 1, inFlight);
      } else {
        FirstAreNew(kids, i, s, k + 1, inFlight + 1);
      }
    }
  }

  /** With room and nothing to make, every child has a try. */
  lemma {:induction false} AllHaveTries(kids: Kids, i: nat, s: StepSpec, k: nat)
    requires k <= |s.expected| && ToCreate(kids, i, s, k, 0) == []
    ensures forall j {:trigger s.expected[j]} :: k <= j < |s.expected| ==> Latest(kids, i, s.expected[j], s.retries).Some?
    decreases |s.expected| - k
  {
    if k < |s.expected| {
      AllHaveTries(kids, i, s, k + 1);
    }
  }

  /** When every child has a try and all tries have ended, the step is done or asks for a try there is not. */
  lemma {:induction false} DoneOrAgain(kids: Kids, i: nat, s: StepSpec, k: nat)
    requires k <= |s.expected| && AllEnded(kids)
    requires forall j {:trigger s.expected[j]} :: 0 <= j < |s.expected| ==> Latest(kids, i, s.expected[j], s.retries).Some?
    ensures Gather(kids, i, s, k).done || Gather(kids, i, s, k).again != []
    ensures forall t {:trigger t in kids} :: t in Gather(kids, i, s, k).again ==> t !in kids
  {
    if k > 0 {
      DoneOrAgain(kids, i, s, k - 1);
      assert Latest(kids, i, s.expected[k - 1], s.retries).Some?;
    }
  }

  // ----- A pass makes progress --------------------------------------------------------

  /** The pass has made nothing yet, and has found nothing to make at a step it has looked at. */
  ghost predicate Still(plan: Plan, w: World, kids: Kids) {
    && w.kids == kids
    && (w.pass.Some? ==>
          && w.pass.value.view == kids
          && (w.pass.value.gathering ==> AtOpenStep(plan, w.pass.value) && FirstTries(plan, w.pass.value) == []))
  }

  predicate NoDelay(c: Clock) {
    forall i {:trigger c.delayed[i]} :: 0 <= i < |c.delayed| ==> !c.delayed[i]
  }

  lemma EnsureProgress(plan: Plan, w: World, c: Clock)
    requires Sound(plan, w) && Ready(plan, w) && w.pass.Some? && ClockFits(plan, c) && NoDelay(c)
    requires Still(plan, w, w.kids) && AllEnded(w.kids) && Choice(plan, w, c).Ensure? && Enabled(plan, w, Choice(plan, w, c))
    ensures var w2 := After(plan, w, Choice(plan, w, c)); Still(plan, w2, w.kids) || |w.kids| < |w2.kids|
  {
    var p := w.pass.value;
    var i := |p.verdicts|;
    var children := FirstTries(plan, p);
    AllOrNone(children);
    ChoiceAdds(plan, w, c);
    if children != [] {
      FirstAreNew(w.kids, i, plan[i], 0, 0);
      CreateFirstAt(w.kids, i, children, Try(i, children[0], 0));
      assert children[0] in children;
      NewTryCounts(w.kids, After(plan, w, Choice(plan, w, c)).kids, Try(i, children[0], 0));
    }
  }

  lemma WaitProgress(plan: Plan, w: World, c: Clock)
    requires Sound(plan, w) && Ready(plan, w) && w.pass.Some? && ClockFits(plan, c)
    requires Still(plan, w, w.kids) && AllEnded(w.kids) && Choice(plan, w, c).Wait? && Enabled(plan, w, Choice(plan, w, c))
    ensures |w.kids| < |After(plan, w, Choice(plan, w, c)).kids|
  {
    var p := w.pass.value;
    var i := |p.verdicts|;
    var again := Gathers(plan, p).again;
    AllHaveTries(w.kids, i, plan[i], 0);
    DoneOrAgain(w.kids, i, plan[i], |plan[i].expected|);
    AllOrNone(again);
    ChoiceAdds(plan, w, c);
    CreateAgainStays(w.kids, again, again[0]);
    assert again[0] in again;
    NewTryCounts(w.kids, After(plan, w, Choice(plan, w, c)).kids, again[0]);
  }

  lemma FinishEnds(plan: Plan, w: World, c: Clock)
    requires Sound(plan, w) && Ready(plan, w) && w.pass.Some? && ClockFits(plan, c)
    requires Choice(plan, w, c).Finish?
    ensures var w2 := Driven(plan, w, c); w2.history != [] && IsTerminal(Now(w2).phase)
  {
    ChoiceIsReady(plan, w, c);
    var p := w.pass.value;
    FirstSevereMeaning(Counting(p.verdicts, plan));
    assert Driven(plan, w, c) == After(plan, w, Finish(true));
  }

  /** A pass over children that have all ended makes a new try or ends the run. */
  lemma {:induction false} PassProgress(plan: Plan, w: World, c: Clock)
    requires Sound(plan, w) && Ready(plan, w) && w.pass.Some? && ClockFits(plan, c) && NoDelay(c)
    requires Still(plan, w, w.kids) && AllEnded(w.kids)
    ensures var w2 := Driven(plan, w, c); |w.kids| < |w2.kids| || (w2.history != [] && IsTerminal(Now(w2).phase))
    decreases Remaining(plan, w)
  {
    var e := Choice(plan, w, c);
    ChoiceIsReady(plan, w, c);
    StepSound(plan, w, e);
    var w2 := After(plan, w, e);
    DrivenKeeps(plan, w2, c);
    AddsInSize(w2.kids, Driven(plan, w2, c).kids);
    if e.Finish? {
      FinishEnds(plan, w, c);
    } else if e.Wait? {
      WaitProgress(plan, w, c);
    } else {
      if e.Ensure? {
        EnsureProgress(plan, w, c);
      }
      if w2.kids == w.kids {
        PassProgress(plan, w2, c);
      }
    }
  }

  // ----- Children end and passes follow, in any order -----------------------------------

  /** A child at work comes to an end, or the reconciler makes an undisturbed pass. */
  datatype Move = ChildEnds(t: Try, phase: Phase) | PassOver(c: Clock)

  ghost predicate IsOpen(w: World) {
    w.history != [] && w.pass.None? && !IsTerminal(Now(w).phase)
  }

  ghost predicate CanMove(plan: Plan, w: World, m: Move) {
    && IsOpen(w)
    && match m
       case ChildEnds(t, phase) => t in w.kids && !IsTerminal(w.kids[t]) && IsTerminal(phase)
       case PassOver(c) => ClockFits(plan, c) && NoDelay(c) && Ready(plan, Taken(w))
  }

  ghost function Moved(plan: Plan, w: World, m: Move): World
    requires CanMove(plan, w, m)
  {
    match m
    case ChildEnds(t, phase) => w.(kids := w.kids[t := phase])
    case PassOver(c) => Driven(plan, Taken(w), c)
  }

  function AtWork(kids: Kids): set<Try> {
    set t | t in kids && !IsTerminal(kids[t])
  }

  /** Nothing came of the move: a pass that made no try, while the run goes on. */
  ghost predicate IsIdle(plan: Plan, w: World, m: Move)
    requires CanMove(plan, w, m)
  {
    m.PassOver? && Moved(plan, w, m).kids == w.kids && IsOpen(Moved(plan, w, m))
  }

  lemma TakenOk(plan: Plan, w: World)
    requires Sound(plan, w) && IsOpen(w)
    ensures Sound(plan, Taken(w)) && Ready(plan, Taken(w)) && Taken(w).pass.Some?
    ensures Still(plan, Taken(w), w.kids)
  {
    var e := Begin(|w.history| - 1, w.kids, true);
    StepSound(plan, w, e);
    assert MarksSound(plan, Now(w).steps);
    assert Taken(w) == After(plan, w, e);
  }

  lemma PassSoundly(plan: Plan, w: World, c: Clock)
    requires Sound(plan, w) && CanMove(plan, w, PassOver(c))
    ensures var b := Moved(plan, w, PassOver(c));
            && Sound(plan, b) && b.pass.None? && b.history != [] && AddsUnset(w.kids, b.kids)
  {
    TakenOk(plan, w);
    DrivenKeeps(plan, Taken(w), c);
  }

  /** A run that is open can always move on: a pass is possible, and so is the end of each child at work. */
  lemma OpenRunsMove(plan: Plan, w: World, c: Clock)
    requires Sound(plan, w) && IsOpen(w) && ClockFits(plan, c) && NoDelay(c)
    ensures CanMove(plan, w, PassOver(c))
    ensures forall t {:trigger t in AtWork(w.kids)} :: t in AtWork(w.kids) ==> CanMove(plan, w, ChildEnds(t, Passed))
  {
    TakenOk(plan, w);
  }

  /** A pass comes to nothing only while a child is at work. */
  lemma IdleMeansAtWork(plan: Plan, w: World, c: Clock)
    requires Sound(plan, w) && CanMove(plan, w, PassOver(c)) && IsIdle(plan, w, PassOver(c))
    ensures AtWork(w.kids) != {}
  {
    TakenOk(plan, w);
    PassSoundly(plan, w, c);
    if AtWork(w.kids) == {} {
      forall t | t in w.kids ensures IsTerminal(w.kids[t]) {
        assert t !in AtWork(w.kids);
      }
      PassProgress(plan, Taken(w), c);
    }
  }

  /** So an open run always has a move that comes to something: the end of a child at work, or else the next pass. */
  lemma OpenRunsGoOn(plan: Plan, w: World, c: Clock) returns (m: Move)
    requires Sound(plan, w) && IsOpen(w) && ClockFits(plan, c) && NoDelay(c)
    ensures CanMove(plan, w, m) && !IsIdle(plan, w, m)
    ensures m == PassOver(c) || m.ChildEnds?
  {
    OpenRunsMove(plan, w, c);
    if t :| t in AtWork(w.kids) {
      m := ChildEnds(t, Passed);
    } else {
      m := PassOver(c);
      if IsIdle(plan, w, m) {
        IdleMeansAtWork(plan, w, c);
      }
    }
  }

  /** Tries that can still be made, and those at work: what a move that comes to something lowers, in this order. */
  ghost predicate Lower(plan: Plan, a: World, b: World) {
    || MaxTries(plan, |plan|) - |b.kids| < MaxTries(plan, |plan|) - |a.kids|
    || (|b.kids| == |a.kids| && |AtWork(b.kids)| < |AtWork(a.kids)|)
  }

  lemma MoveLowers(plan: Plan, w: World, m: Move)
    requires Sound(plan, w) && CanMove(plan, w, m)
    ensures var b := Moved(plan, w, m);
            && Sound(plan, b) && b.pass.None? && b.history != []
            && |b.kids| <= MaxTries(plan, |plan|)
            && (IsOpen(b) && !IsIdle(plan, w, m) ==> Lower(plan, w, b))
  {
    var b := Moved(plan, w, m);
    if m.ChildEnds? {
      StepSound(plan, w, KidMoves(m.t, m.phase));
      EndsOne(w.kids, m.t, m.phase);
    } else {
      PassSoundly(plan, w, m.c);
      AddsInSize(w.kids, b.kids);
    }
    TriesAreBounded(plan, b.kids);
  }

  lemma EndsOne(kids: Kids, t: Try, phase: Phase)
    requires t in kids && !IsTerminal(kids[t]) && IsTerminal(phase)
    ensures |kids[t := phase]| == |kids|
    ensures |AtWork(kids[t := phase])| == |AtWork(kids)| - 1
  {
    assert AtWork(kids[t := phase]) == AtWork(kids) - {t};
    assert kids[t := phase].Keys == kids.Keys;
  }

  lemma AddsToWork(a: Kids, b: Kids)
    requires AddsUnset(a, b)
    ensures |AtWork(b)| - |AtWork(a)| <= |b| - |a|
  {
    var more := b.Keys - a.Keys;
    assert AtWork(b) <= AtWork(a) + more;
    SubsetSize(AtWork(b), AtWork(a) + more);
    assert |AtWork(a) + more| <= |AtWork(a)| + |more|;
    assert b.Keys == a.Keys + more;
    assert |b.Keys| == |a.Keys| + |more|;
  }

  /** How many moves that come to something are left at most: each try is made once and ends once. */
  function Left(plan: Plan, w: World): int {
    2 * (MaxTries(plan, |plan|) - |w.kids|) + |AtWork(w.kids)|
  }

  lemma MoveCounts(plan: Plan, w: World, m: Move)
    requires Sound(plan, w) && CanMove(plan, w, m)
    ensures var b := Moved(plan, w, m);
            && 0 <= Left(plan, b) <= Left(plan, w)
            && (IsOpen(b) && !IsIdle(plan, w, m) ==> Left(plan, b) < Left(plan, w))
  {
    var b := Moved(plan, w, m);
    MoveLowers(plan, w, m);
    match m
    case ChildEnds(t, phase) => EndsOne(w.kids, t, phase);
    case PassOver(c) =>
      PassSoundly(plan, w, c);
      AddsToWork(w.kids, b.kids);
      AddsInSize(w.kids, b.kids);
  }

  ghost predicate Schedule(plan: Plan, w: World, ms: seq<Move>)
    decreases |ms|
  {
    ms == [] || (CanMove(plan, w, ms[0]) && Schedule(plan, Moved(plan, w, ms[0]), ms[1..]))
  }

  /** The moves of a schedule that come to something. */
  ghost function Productive(plan: Plan, w: World, ms: seq<Move>): nat
    requires Schedule(plan, w, ms)
    decreases |ms|
  {
    if ms == [] then 0
    else (if IsIdle(plan, w, ms[0]) then 0 else 1) + Productive(plan, Moved(plan, w, ms[0]), ms[1..])
  }

  /**
   However ends of children and passes alternate, and whatever has been lost before, a run makes no
   more than a bounded number of moves that come to something. So it ends once its children do.
   */
  lemma {:induction false} RunEnds(plan: Plan, w: World, ms: seq<Move>)
    requires Sound(plan, w) && Schedule(plan, w, ms)
    ensures Productive(plan, w, ms) <= 2 * (MaxTries(plan, |plan|) - |w.kids|) + |AtWork(w.kids)| + 1
    decreases |ms|
  {
    TriesAreBounded(plan, w.kids);
    if ms != [] {
      var b := Moved(plan, w, ms[0]);
      MoveLowers(plan, w, ms[0]);
      MoveCounts(plan, w, ms[0]);
      if IsOpen(b) {
        RunEnds(plan, b, ms[1..]);
      } else {
        NothingAfterEnd(plan, b, ms[1..]);
      }
    }
  }

  lemma NothingAfterEnd(plan: Plan, w: World, ms: seq<Move>)
    requires Schedule(plan, w, ms) && !IsOpen(w)
    ensures ms == []
  {}
}
