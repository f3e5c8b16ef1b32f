/**
 A composite run over time: passes of the reconciler that work from earlier copies of the
 run's status and from listings of its children that lag behind, status writes that are
 refused when the status has moved on, and passes that stop half way.
 */
module CompositeProtocol {
  import opened Bytes
  import opened Phases
  import opened Composite
  import opened CompositeTries

  /** What the status says of a step. */
  datatype Mark = Unmarked | Started | Bypassed | Closed(verdict: Phase)

  datatype Status = Status(phase: Phase, steps: seq<Mark>)

  /** A pass: the version it read, its own copy of the marks, the verdicts so far, its listing of the children. */
  datatype Pass = Pass(base: nat, steps: seq<Mark>, verdicts: seq<Verdict>, view: Kids, gathering: bool)

  /** All versions of the status, the children, the pass at work, and the steps ended by their timeout. */
  datatype World = World(history: seq<Status>, kids: Kids, pass: Option<Pass>, timedOut: set<nat>)

  /** How the wait for a step's children ends: nothing written, written, or written and found too late. */
  datatype Ending = Lost | Stored | TimedOut

  datatype Event =
    | KidMoves(t: Try, phase: Phase)
    | Elsewhere(phase: Phase)
    | Begin(base: nat, view: Kids, stored: bool)
    | Skip
    | TakeRecorded
    | Ensure(m: nat, newer: Kids)
    | Settle
    | Wait(m: nat, ending: Ending)
    | Finish(stored: bool)
    | Drop

  function Now(w: World): Status
    requires w.history != []
  {
    w.history[|w.history| - 1]
  }

  // ----- One event --------------------------------------------------------------------

  /** The first tries the pass makes for the step it is at. */
  function FirstTries(plan: Plan, p: Pass): seq<Child>
    requires |p.verdicts| < |plan|
  {
    var i := |p.verdicts|;
    ToCreate(p.view, i, plan[i], 0, |InFlight(p.view, i)|)
  }

  function Gathers(plan: Plan, p: Pass): Gathered
    requires |p.verdicts| < |plan|
  {
    var i := |p.verdicts|;
    Gather(p.view, i, plan[i], |plan[i].expected|)
  }

  function InStep(kids: Kids, step: nat): set<Try> {
    set t | t in kids && t.step == step
  }

  /** The pass is at a step that is neither skipped nor closed. */
  predicate AtOpenStep(plan: Plan, p: Pass) {
    && |p.verdicts| < |plan| == |p.steps|
    && !ShouldSkip(p.verdicts, plan)
    && !p.steps[|p.verdicts|].Closed?
  }

  /** The children after the first m of the tries wanted are made. */
  function Ensured(plan: Plan, w: World, m: nat): Kids
    requires w.pass.Some? && AtOpenStep(plan, w.pass.value) && m <= |FirstTries(plan, w.pass.value)|
  {
    CreateFirst(w.kids, |w.pass.value.verdicts|, FirstTries(plan, w.pass.value)[..m])
  }

  ghost predicate Enabled(plan: Plan, w: World, e: Event) {
    && w.history != []
    && var last := |w.history| - 1;
       match e
       case KidMoves(t, _) => t in w.kids && !IsTerminal(w.kids[t])
       case Elsewhere(_) => true
       case Begin(base, view, stored) =>
         && w.pass.None? && base <= last && !IsTerminal(w.history[base].phase) && Grows(view, w.kids)
         && (stored ==> base == last)
       case Skip =>
         w.pass.Some? && var p := w.pass.value; !p.gathering && |p.verdicts| < |plan| == |p.steps| && ShouldSkip(p.verdicts, plan)
       case TakeRecorded =>
         w.pass.Some? && var p := w.pass.value; !p.gathering && |p.verdicts| < |plan| == |p.steps|
                                                && !ShouldSkip(p.verdicts, plan) && p.steps[|p.verdicts|].Closed?
       case Ensure(m, newer) =>
         w.pass.Some? && var p := w.pass.value; !p.gathering && AtOpenStep(plan, p) && m <= |FirstTries(plan, p)|
                                                && Grows(newer, Ensured(plan, w, m))
       case Settle =>
         w.pass.Some? && var p := w.pass.value; p.gathering && AtOpenStep(plan, p) && Gathers(plan, p).done
       case Wait(m, ending) =>
         w.pass.Some? && var p := w.pass.value; p.gathering && AtOpenStep(plan, p) && !Gathers(plan, p).done
                                                && m <= |Gathers(plan, p).again|
                                                && (ending != Lost ==> m == |Gathers(plan, p).again| && p.base == last)
                                                && (ending == TimedOut ==> plan[|p.verdicts|].timeout && p.steps[|p.verdicts|] != Unmarked)
       case Finish(stored) =>
         w.pass.Some? && var p := w.pass.value; !p.gathering && |p.verdicts| == |plan| && (stored ==> p.base == last)
       case Drop => w.pass.Some?
  }

  /** The pass goes on to the next step. */
  function Advanced(p: Pass, mark: Mark, v: Verdict): Pass
    requires |p.verdicts| < |p.steps|
  {
    p.(steps := p.steps[|p.verdicts| := mark], verdicts := p.verdicts + [v], gathering := false)
  }

  /** The marks as the wait writes them. */
  function Waiting(p: Pass): seq<Mark>
    requires |p.verdicts| < |p.steps|
  {
    if p.steps[|p.verdicts|] == Unmarked then p.steps[|p.verdicts| := Started] else p.steps
  }

  function After(plan: Plan, w: World, e: Event): World
    requires Enabled(plan, w, e)
  {
    match e
    case KidMoves(t, phase) => w.(kids := w.kids[t := phase])
    case Elsewhere(phase) => w.(history := w.history + [Now(w).(phase := phase)])
    case Begin(base, view, stored) =>
      if w.history[base].phase == Running then w.(pass := Some(Pass(base, w.history[base].steps, [], view, false)))
      else if stored then
        w.(history := w.history + [w.history[base].(phase := Running)],
           pass := Some(Pass(|w.history|, w.history[base].steps, [], view, false)))
      else w
    case Skip => w.(pass := Some(Advanced(w.pass.value, Bypassed, None)))
    case TakeRecorded =>
      var p := w.pass.value;
      w.(pass := Some(Advanced(p, p.steps[|p.verdicts|], Some(p.steps[|p.verdicts|].verdict))))
    case Ensure(m, newer) =>
      var p := w.pass.value;
      var i := |p.verdicts|;
      var view := if |InStep(p.view, i)| < |plan[i].expected| then newer else p.view;
      w.(kids := Ensured(plan, w, m), pass := Some(p.(view := view, gathering := true)))
    case Settle =>
      var p := w.pass.value;
      var v := Aggregate(Gathers(plan, p).outcomes, plan[|p.verdicts|].negative);
      w.(pass := Some(Advanced(p, Closed(v), Some(v))))
    case Wait(m, ending) =>
      var p := w.pass.value;
      var kids := CreateAgain(w.kids, Gathers(plan, p).again[..m]);
      (match ending
      case Lost => w.(kids := kids, pass := None)
       case Stored => w.(kids := kids, pass := None, history := w.history + [Status(Running, Waiting(p))])
       case TimedOut =>
        World(w.history + [Status(Running, Waiting(p))], kids,
              Some(Advanced(p.(base := |w.history|), Closed(Failed), Some(Failed))), w.timedOut + {|p.verdicts|}))
    case Finish(stored) =>
      if stored then
        w.(history := w.history + [Status(ParentPhase(w.pass.value.verdicts, plan), w.pass.value.steps)], pass := None)
      else w.(pass := None)
    case Drop => w.(pass := None)
  }

  // ----- Marks ------------------------------------------------------------------------

  predicate IsSettled(m: Mark) {
    m.Bypassed? || m.Closed?
  }

  /** A step is started, then closed; a closed or bypassed step stays what it is. */
  predicate Forward(a: Mark, b: Mark) {
    a == Unmarked || a == b || (a == Started && b.Closed?)
  }

  ghost predicate Follows(a: seq<Mark>, b: seq<Mark>) {
    |a| == |b| && forall k {:trigger Forward(a[k], b[k])} :: 0 <= k < |a| ==> Forward(a[k], b[k])
  }

  ghost predicate Chain(history: seq<Status>) {
    forall u, v {:trigger Follows(history[u].steps, history[v].steps)} ::
      0 <= u <= v < |history| ==> Follows(history[u].steps, history[v].steps)
  }

  function MarkOf(v: Verdict): Mark {
    if v.None? then Bypassed else Closed(v.value)
  }

  /** The first marks are those of the verdicts. */
  ghost predicate Agree(steps: seq<Mark>, verdicts: seq<Verdict>) {
    |verdicts| <= |steps| && forall k {:trigger MarkOf(verdicts[k])} :: 0 <= k < |verdicts| ==> steps[k] == MarkOf(verdicts[k])
  }

  /** The verdicts that the first n marks tell, once those steps are settled. */
  function VerdictsOf(steps: seq<Mark>, n: nat): (r: seq<Verdict>)
    requires n <= |steps|
    ensures |r| == n
  {
    seq(n, k requires 0 <= k < n => if steps[k].Closed? then Some(steps[k].verdict) else None)
  }

  /** A step with a mark comes after settled ones, and is bypassed exactly when their verdicts call for it. */
  ghost predicate MarkSound(plan: Plan, steps: seq<Mark>, k: nat)
    requires k < |steps| == |plan|
  {
    steps[k] != Unmarked ==>
      && (forall j {:trigger IsSettled(steps[j])} :: 0 <= j < k ==> IsSettled(steps[j]))
      && (steps[k] == Bypassed <==> ShouldSkip(VerdictsOf(steps, k), plan))
      && (steps[k].Closed? ==> IsTerminal(steps[k].verdict))
  }

  ghost predicate MarksSound(plan: Plan, steps: seq<Mark>) {
    && |steps| == |plan|
    && forall k {:trigger MarkSound(plan, steps, k)} :: 0 <= k < |steps| ==> MarkSound(plan, steps, k)
  }

  ghost predicate HistorySound(plan: Plan, history: seq<Status>) {
    && history != [] && Chain(history)
    && forall v {:trigger history[v]} :: 0 <= v < |history| ==> MarksSound(plan, history[v].steps)
  }

  ghost predicate PassSound(plan: Plan, history: seq<Status>, p: Pass) {
    && p.base < |history|
    && |p.verdicts| <= |plan|
    && MarksSound(plan, p.steps)
    && Follows(history[p.base].steps, p.steps)
    && Agree(p.steps, p.verdicts)
    && (p.gathering ==> AtOpenStep(plan, p))
  }

  /** What holds in every reachable state, whatever is lost, late or out of date. */
  ghost predicate Sound(plan: Plan, w: World) {
    && WellTried(plan, w.kids)
    && HistorySound(plan, w.history)
    && (w.pass.Some? ==> PassSound(plan, w.history, w.pass.value) && Grows(w.pass.value.view, w.kids))
  }

  lemma AgreeSettles(steps: seq<Mark>, verdicts: seq<Verdict>)
    requires Agree(steps, verdicts)
    ensures forall j {:trigger IsSettled(steps[j])} :: 0 <= j < |verdicts| ==> IsSettled(steps[j])
    ensures VerdictsOf(steps, |verdicts|) == verdicts
  {
    forall j | 0 <= j < |verdicts| ensures IsSettled(steps[j]) && VerdictsOf(steps, |verdicts|)[j] == verdicts[j] {
      assert steps[j] == MarkOf(verdicts[j]);
    }
  }

  lemma FollowsTransitive(a: seq<Mark>, b: seq<Mark>, c: seq<Mark>)
    requires Follows(a, b) && Follows(b, c)
    ensures Follows(a, c)
  {
    forall k | 0 <= k < |a| ensures Forward(a[k], c[k]) {
      assert Forward(a[k], b[k]) && Forward(b[k], c[k]);
    }
  }

  lemma FollowsItself(a: seq<Mark>)
    ensures Follows(a, a)
  {
    forall k | 0 <= k < |a| ensures Forward(a[k], a[k]) {}
  }

  /** A new version of the status that goes on from the last one. */
  lemma StatusJoins(plan: Plan, history: seq<Status>, s: Status)
    requires HistorySound(plan, history) && MarksSound(plan, s.steps)
    requires Follows(history[|history| - 1].steps, s.steps)
    ensures HistorySound(plan, history + [s])
  {
    var all, last := history + [s], |history| - 1;
    forall u, v | 0 <= u <= v < |all| ensures Follows(all[u].steps, all[v].steps) {
      if v <= last {
        assert Follows(history[u].steps, history[v].steps);
      } else if u <= last {
        assert Follows(history[u].steps, history[last].steps);
        FollowsTransitive(history[u].steps, history[last].steps, s.steps);
      } else {
        FollowsItself(s.steps);
      }
    }
    forall v | 0 <= v < |all| ensures MarksSound(plan, all[v].steps) {
      assert v <= last ==> all[v] == history[v];
    }
  }

  // ----- Every event keeps the marks sound --------------------------------------------

  /** Marking step i, all before it settled and nothing after it marked. */
  lemma MarkingIsSound(plan: Plan, steps: seq<Mark>, i: nat, m: Mark)
    requires MarksSound(plan, steps) && i < |steps| && !IsSettled(steps[i]) && m != Unmarked
    requires forall j {:trigger IsSettled(steps[j])} :: 0 <= j < i ==> IsSettled(steps[j])
    requires m == Bypassed <==> ShouldSkip(VerdictsOf(steps, i), plan)
    requires m.Closed? ==> IsTerminal(m.verdict)
    ensures MarksSound(plan, steps[i := m])
    ensures Follows(steps, steps[i := m])
  {
    var after := steps[i := m];
    assert MarkSound(plan, steps, i);
    forall k | 0 <= k < |steps| ensures MarkSound(plan, after, k) && Forward(steps[k], after[k]) {
      assert MarkSound(plan, steps, k);
      if k <= i {
        assert VerdictsOf(after, k) == VerdictsOf(steps, k);
        assert forall j {:trigger IsSettled(after[j])} :: 0 <= j < k ==> after[j] == steps[j] && IsSettled(steps[j]);
      } else {
        assert steps[k] == Unmarked;
      }
    }
  }

  /** Settling the step the pass is at. */
  lemma AdvancedSound(plan: Plan, history: seq<Status>, p: Pass, v: Verdict)
    requires PassSound(plan, history, p) && |p.verdicts| < |plan|
    requires v.None? <==> ShouldSkip(p.verdicts, plan)
    requires v.Some? ==> IsTerminal(v.value)
    requires p.steps[|p.verdicts|].Closed? ==> v == Some(p.steps[|p.verdicts|].verdict)
    ensures PassSound(plan, history, Advanced(p, MarkOf(v), v))
  {
    var i := |p.verdicts|;
    var q := Advanced(p, MarkOf(v), v);
    AgreeSettles(p.steps, p.verdicts);
    assert MarkSound(plan, p.steps, i);
    if IsSettled(p.steps[i]) {
      assert q.steps == p.steps;
    } else {
      MarkingIsSound(plan, p.steps, i, MarkOf(v));
      FollowsTransitive(history[p.base].steps, p.steps, q.steps);
    }
    forall k | 0 <= k < |q.verdicts| ensures q.steps[k] == MarkOf(q.verdicts[k]) {
      assert k < i ==> p.steps[k] == MarkOf(p.verdicts[k]);
    }
  }

  /** The marks that a waiting pass writes. */
  lemma WaitingSound(plan: Plan, history: seq<Status>, p: Pass)
    requires PassSound(plan, history, p) && AtOpenStep(plan, p)
    ensures MarksSound(plan, Waiting(p)) && Follows(p.steps, Waiting(p))
    ensures Follows(history[p.base].steps, Waiting(p))
  {
    AgreeSettles(p.steps, p.verdicts);
    FollowsItself(p.steps);
    if p.steps[|p.verdicts|] == Unmarked {
      MarkingIsSound(plan, p.steps, |p.verdicts|, Started);
    }
    FollowsTransitive(history[p.base].steps, p.steps, Waiting(p));
  }

  lemma MovesSound(plan: Plan, w: World, e: Event)
    requires Sound(plan, w) && e.KidMoves? && Enabled(plan, w, e)
    ensures Sound(plan, After(plan, w, e)) && Grows(w.kids, After(plan, w, e).kids)
  {
    forall t | t in After(plan, w, e).kids ensures TryOk(plan, After(plan, w, e).kids, t) {
      assert TryOk(plan, w.kids, t);
    }
  }

  lemma AdvanceSound(plan: Plan, w: World, e: Event)
    requires Sound(plan, w) && (e.Skip? || e.TakeRecorded? || e.Settle?) && Enabled(plan, w, e)
    ensures Sound(plan, After(plan, w, e))
  {
    var p := w.pass.value;
    var i := |p.verdicts|;
    var q := After(plan, w, e).pass.value;
    var v := q.verdicts[i];
    AgreeSettles(p.steps, p.verdicts);
    assert MarkSound(plan, p.steps, i);
    if e.Settle? {
      AggregateIsTerminal(Gathers(plan, p).outcomes, plan[i].negative);
    }
    AdvancedSound(plan, w.history, p, v);
    assert q == Advanced(p, MarkOf(v), v);
  }

  lemma EnsureSound(plan: Plan, w: World, e: Event)
    requires Sound(plan, w) && e.Ensure? && Enabled(plan, w, e)
    ensures Sound(plan, After(plan, w, e)) && Grows(w.kids, After(plan, w, e).kids)
    ensures forall t {:trigger t in After(plan, w, e).kids} :: t in After(plan, w, e).kids ==> t in w.kids || t.step == |w.pass.value.verdicts|
  {
    var p := w.pass.value;
    var i := |p.verdicts|;
    var children := FirstTries(plan, p);
    ToCreateExpected(p.view, i, plan[i], 0, |InFlight(p.view, i)|);
    forall c | c in children[..e.m] ensures c in plan[i].expected {
      assert c in children;
    }
    CreateFirstKeeps(plan, w.kids, i, children[..e.m]);
  }

  /** The retries a pass makes follow tries that ended badly, whatever happened since its listing. */
  lemma RetriesJoin(plan: Plan, w: World, m: nat)
    requires Sound(plan, w) && w.pass.Some? && AtOpenStep(plan, w.pass.value) && m <= |Gathers(plan, w.pass.value).again|
    ensures var kids := CreateAgain(w.kids, Gathers(plan, w.pass.value).again[..m]);
            && WellTried(plan, kids) && Grows(w.kids, kids)
            && forall t {:trigger t in kids} :: t in kids ==> t in w.kids || t.step == |w.pass.value.verdicts|
  {
    var p := w.pass.value;
    var i := |p.verdicts|;
    var again := Gathers(plan, p).again;
    AgainIsOk(plan, p.view, i, |plan[i].expected|);
    forall t | t in again[..m] ensures RetryOk(plan, w.kids, i, t) {
      assert t in again;
      assert RetryOk(plan, p.view, i, t);
      assert Previous(t) in p.view;
    }
    CreateAgainKeeps(plan, w.kids, i, again[..m]);
  }

  lemma WaitSound(plan: Plan, w: World, e: Event)
    requires Sound(plan, w) && e.Wait? && Enabled(plan, w, e)
    ensures Sound(plan, After(plan, w, e))
  {
    var p := w.pass.value;
    RetriesJoin(plan, w, e.m);
    if e.ending != Lost {
      WaitingSound(plan, w.history, p);
      StatusJoins(plan, w.history, Status(Running, Waiting(p)));
      if e.ending == TimedOut {
        assert Waiting(p) == p.steps;
        FollowsItself(p.steps);
        var h := w.history + [Status(Running, p.steps)];
        AdvancedSound(plan, h, p.(base := |w.history|), Some(Failed));
      }
    }
  }

  lemma BeginSound(plan: Plan, w: World, e: Event)
    requires Sound(plan, w) && e.Begin? && Enabled(plan, w, e)
    ensures Sound(plan, After(plan, w, e))
  {
    var s := w.history[e.base];
    FollowsItself(s.steps);
    if s.phase != Running && e.stored {
      StatusJoins(plan, w.history, s.(phase := Running));
    }
  }

  lemma StatusSound(plan: Plan, w: World, e: Event)
    requires Sound(plan, w) && (e.Elsewhere? || e.Finish?) && Enabled(plan, w, e)
    ensures Sound(plan, After(plan, w, e))
  {
    if e.Elsewhere? {
      FollowsItself(Now(w).steps);
      StatusJoins(plan, w.history, Now(w).(phase := e.phase));
    } else if e.stored {
      StatusJoins(plan, w.history, Status(ParentPhase(w.pass.value.verdicts, plan), w.pass.value.steps));
    }
  }

  lemma StepSound(plan: Plan, w: World, e: Event)
    requires Sound(plan, w) && Enabled(plan, w, e)
    ensures Sound(plan, After(plan, w, e))
  {
    match e
    case KidMoves(_, _) => MovesSound(plan, w, e);
    case Elsewhere(_) => StatusSound(plan, w, e);
    case Begin(_, _, _) => BeginSound(plan, w, e);
    case Skip => AdvanceSound(plan, w, e);
    case TakeRecorded => AdvanceSound(plan, w, e);
    case Ensure(_, _) => EnsureSound(plan, w, e);
    case Settle => AdvanceSound(plan, w, e);
    case Wait(_, _) => WaitSound(plan, w, e);
    case Finish(_) => StatusSound(plan, w, e);
    case Drop =>
  }
}
