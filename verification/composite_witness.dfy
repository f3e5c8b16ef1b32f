/** Runs that show where the order of steps and the parallelism fail. */
module CompositeWitness {
  import opened Bytes
  import opened Phases
  import opened Composite
  import opened CompositeTries
  import opened CompositeProtocol
  import opened CompositeOrder
  import opened CompositeRuns

  // ----- Putting runs together --------------------------------------------------------

  /** The children are listed as they are, as the API server itself lists them. */
  ghost predicate IsLive(plan: Plan, w: World, e: Event)
    requires Enabled(plan, w, e)
  {
    match e
    case Begin(_, view, _) => view == w.kids
    case Ensure(m, newer) => newer == Ensured(plan, w, m)
    case _ => true
  }

  ghost predicate AllLive(plan: Plan, w: World, events: seq<Event>)
    requires Run(plan, w, events)
    decreases |events|
  {
    events == []
    || (IsLive(plan, w, events[0]) && AllLive(plan, After(plan, w, events[0]), events[1..]))
  }

  /** The events lead from w to w', all listings being live. */
  ghost predicate Leads(plan: Plan, w: World, events: seq<Event>, w': World) {
    Run(plan, w, events) && AllLive(plan, w, events) && End(plan, w, events) == w'
  }

  lemma LeadsOne(plan: Plan, w: World, e: Event)
    requires Enabled(plan, w, e) && IsLive(plan, w, e)
    ensures Leads(plan, w, [e], After(plan, w, e))
  {
    assert [e][1..] == [];
    assert Run(plan, After(plan, w, e), []) && AllLive(plan, After(plan, w, e), []);
  }

  lemma {:induction false} LeadsOn(plan: Plan, w: World, es: seq<Event>, w1: World, fs: seq<Event>, w2: World)
    requires Leads(plan, w, es, w1) && Leads(plan, w1, fs, w2)
    ensures Leads(plan, w, es + fs, w2)
    decreases |es|
  {
    if es == [] {
      assert es + fs == fs;
    } else {
      ConcatTail(es, fs);
      LeadsOn(plan, After(plan, w, es[0]), es[1..], w1, fs, w2);
    }
  }

  lemma Then(plan: Plan, w: World, es: seq<Event>, w1: World, e: Event)
    requires Leads(plan, w, es, w1) && Enabled(plan, w1, e) && IsLive(plan, w1, e)
    ensures Leads(plan, w, es + [e], After(plan, w1, e))
  {
    LeadsOne(plan, w1, e);
    LeadsOn(plan, w, es, w1, [e], After(plan, w1, e));
  }

  // ----- Steps that pass --------------------------------------------------------------

  /** The phase in which a child does well. */
  function Good(s: StepSpec): Phase {
    if s.negative then Failed else Passed
  }

  /** Every child of the step has done well at its first try. */
  ghost predicate StepGood(plan: Plan, kids: Kids, j: nat) {
    && j < |plan|
    && (forall e {:trigger Try(j, e, 0)} :: e in plan[j].expected ==> Try(j, e, 0) in kids && kids[Try(j, e, 0)] == Good(plan[j]))
    && (forall t {:trigger t in kids} :: t in kids && t.step == j ==> t.attempt == 0)
  }

  /** The steps before k have done well, and none of them is empty. */
  ghost predicate AllGood(plan: Plan, kids: Kids, k: nat)
    requires k <= |plan|
  {
    forall j {:trigger StepGood(plan, kids, j)} :: 0 <= j < k ==> StepGood(plan, kids, j) && plan[j].expected != []
  }

  lemma {:induction false} FirstIsLatest(kids: Kids, j: nat, e: Child, n: nat)
    requires Try(j, e, 0) in kids && forall t {:trigger t in kids} :: t in kids && t.step == j ==> t.attempt == 0
    ensures Latest(kids, j, e, n) == Some(0)
  {
    if n > 0 {
      assert Try(j, e, n) !in kids;
      FirstIsLatest(kids, j, e, n - 1);
    }
  }

  lemma {:induction false} GoodGathers(plan: Plan, kids: Kids, j: nat, k: nat)
    requires StepGood(plan, kids, j) && k <= |plan[j].expected|
    ensures Gather(kids, j, plan[j], k).done
    ensures |Gather(kids, j, plan[j], k).outcomes| == k
    ensures forall i {:trigger Gather(kids, j, plan[j], k).outcomes[i]} :: 0 <= i < k ==> Gather(kids, j, plan[j], k).outcomes[i] == Good(plan[j])
  {
    if k > 0 {
      GoodGathers(plan, kids, j, k - 1);
      FirstIsLatest(kids, j, plan[j].expected[k - 1], plan[j].retries);
    }
  }

  lemma GoodPasses(plan: Plan, kids: Kids, j: nat)
    requires StepGood(plan, kids, j) && plan[j].expected != []
    ensures var g := Gather(kids, j, plan[j], |plan[j].expected|); g.done && Aggregate(g.outcomes, plan[j].negative) == Passed
  {
    GoodGathers(plan, kids, j, |plan[j].expected|);
    FirstSevereMeaning(Gather(kids, j, plan[j], |plan[j].expected|).outcomes);
  }

  function Passes(n: nat): (r: seq<Verdict>)
    ensures |r| == n
  {
    seq(n, _ => Some(Passed))
  }

  lemma PassesSkipNothing(plan: Plan, n: nat)
    requires n < |plan|
    ensures !ShouldSkip(Passes(n), plan)
  {}

  /** The first i steps closed as passed, the others as they were. */
  function ClosedUpTo(steps: seq<Mark>, i: nat): seq<Mark> {
    seq(|steps|, k requires 0 <= k < |steps| => if k < i then Closed(Passed) else steps[k])
  }

  /** A pass that has read version b and found the first i steps passed. */
  function PassAt(h: seq<Status>, b: nat, view: Kids, i: nat): Pass
    requires b < |h|
  {
    Pass(b, ClosedUpTo(h[b].steps, i), Passes(i), view, false)
  }

  /** A step that a pass finds passed: by its record, or by the children listed. */
  ghost predicate FoundPassed(plan: Plan, steps: seq<Mark>, view: Kids, j: nat)
    requires j < |steps|
  {
    steps[j] == Closed(Passed) || (!IsSettled(steps[j]) && StepGood(plan, view, j) && plan[j].expected != [])
  }

  lemma ClosedOneMore(steps: seq<Mark>, i: nat)
    requires i < |steps|
    ensures ClosedUpTo(steps, i)[i := Closed(Passed)] == ClosedUpTo(steps, i + 1)
    ensures Passes(i) + [Some(Passed)] == Passes(i + 1)
  {}

  /** One step found passed. */
  lemma PassGoesOn(plan: Plan, h: seq<Status>, b: nat, kids: Kids, late: set<nat>, i: nat) returns (es: seq<Event>)
    requires b < |h| && |h[b].steps| == |plan| && i < |plan| && FoundPassed(plan, h[b].steps, kids, i)
    ensures Leads(plan, World(h, kids, Some(PassAt(h, b, kids, i)), late), es, World(h, kids, Some(PassAt(h, b, kids, i + 1)), late))
  {
    var steps := h[b].steps;
    var p := PassAt(h, b, kids, i);
    var w := World(h, kids, Some(p), late);
    ClosedOneMore(steps, i);
    PassesSkipNothing(plan, i);
    if steps[i] == Closed(Passed) {
      assert ClosedUpTo(steps, i)[i := p.steps[i]] == ClosedUpTo(steps, i + 1);
      LeadsOne(plan, w, TakeRecorded);
      es := [TakeRecorded];
    } else {
      assert FirstTries(plan, p)[..0] == [];
      assert Ensured(plan, w, 0) == kids;
      LeadsOne(plan, w, Ensure(0, kids));
      var w1 := After(plan, w, Ensure(0, kids));
      assert w1 == w.(pass := Some(p.(gathering := true)));
      GoodPasses(plan, kids, i);
      Then(plan, w, [Ensure(0, kids)], w1, Settle);
      es := [Ensure(0, kids)] + [Settle];
    }
  }

  /** A pass that reads version b and goes through the first i steps. */
  lemma {:induction false} PassReaches(plan: Plan, h: seq<Status>, b: nat, kids: Kids, late: set<nat>, i: nat) returns (es: seq<Event>)
    requires b < |h| && h[b].phase == Running && |h[b].steps| == |plan| && i <= |plan|
    requires forall j {:trigger FoundPassed(plan, h[b].steps, kids, j)} :: 0 <= j < i ==> FoundPassed(plan, h[b].steps, kids, j)
    ensures Leads(plan, World(h, kids, None, late), es, World(h, kids, Some(PassAt(h, b, kids, i)), late))
  {
    if i == 0 {
      var w := World(h, kids, None, late);
      assert ClosedUpTo(h[b].steps, 0) == h[b].steps;
      LeadsOne(plan, w, Begin(b, kids, false));
      es := [Begin(b, kids, false)];
    } else {
      var before := PassReaches(plan, h, b, kids, late, i - 1);
      assert FoundPassed(plan, h[b].steps, kids, i - 1);
      var more := PassGoesOn(plan, h, b, kids, late, i - 1);
      LeadsOn(plan, World(h, kids, None, late), before, World(h, kids, Some(PassAt(h, b, kids, i - 1)), late), more,
              World(h, kids, Some(PassAt(h, b, kids, i)), late));
      es := before + more;
    }
  }

  // ----- Making children one by one ---------------------------------------------------

  /** The children of a step that have no try yet. */
  function Missing(plan: Plan, kids: Kids, i: nat): set<Child>
    requires i < |plan|
  {
    set e | e in plan[i].expected && Try(i, e, 0) !in kids
  }

  ghost predicate FirstOnly(plan: Plan, kids: Kids, i: nat) {
    i < |plan| && forall t {:trigger t in kids} :: t in kids && t.step == i ==> t.attempt == 0 && t.child in plan[i].expected
  }

  /** Steps before i have done well, and step i has first tries only. */
  ghost predicate Ahead(plan: Plan, kids: Kids, i: nat) {
    && FirstOnly(plan, kids, i)
    && AllGood(plan, kids, i)
  }

  lemma {:induction false} NoneYet(kids: Kids, i: nat, e: Child, n: nat)
    requires Try(i, e, 0) !in kids && forall t {:trigger t in kids} :: t in kids && t.step == i ==> t.attempt == 0
    ensures Latest(kids, i, e, n) == None
  {
    assert Try(i, e, n) !in kids;
    if n > 0 {
      NoneYet(kids, i, e, n - 1);
    }
  }

  /** With room, the first missing child is the first to be made. */
  lemma {:induction false} MakesAMissing(plan: Plan, kids: Kids, i: nat, k: nat, inFlight: nat)
    requires FirstOnly(plan, kids, i) && k <= |plan[i].expected| && inFlight < Cap(plan[i])
    requires exists j :: k <= j < |plan[i].expected| && plan[i].expected[j] in Missing(plan, kids, i)
    ensures ToCreate(kids, i, plan[i], k, inFlight) != []
    ensures ToCreate(kids, i, plan[i], k, inFlight)[0] in Missing(plan, kids, i)
    decreases |plan[i].expected| - k
  {
    var e := plan[i].expected[k];
    if e in Missing(plan, kids, i) {
      NoneYet(kids, i, e, plan[i].retries);
    } else {
      FirstIsLatest(kids, i, e, plan[i].retries);
      MakesAMissing(plan, kids, i, k + 1, inFlight);
    }
  }

  /** The status before anything was recorded. */
  function Blank(plan: Plan): seq<Status> {
    Init(plan, Running).history
  }

  lemma StepGoodFrame(plan: Plan, a: Kids, b: Kids, j: nat, i: nat)
    requires StepGood(plan, a, j) && j != i
    requires forall t: Try {:trigger t in b} :: t.step != i ==> (t in a <==> t in b) && (t in a ==> b[t] == a[t])
    ensures StepGood(plan, b, j)
  {
    forall e | e in plan[j].expected ensures Try(j, e, 0) in b && b[Try(j, e, 0)] == Good(plan[j]) {
      assert Try(j, e, 0) in a;
      assert Try(j, e, 0).step != i;
    }
  }

  /** One more child of step i. */
  lemma OneMore(plan: Plan, kids: Kids, i: nat, e: Child)
    requires Ahead(plan, kids, i) && e in Missing(plan, kids, i)
    ensures var after := kids[Try(i, e, 0) := Unset];
            && Ahead(plan, after, i) && Missing(plan, after, i) == Missing(plan, kids, i) - {e}
            && InFlight(after, i) == InFlight(kids, i) + {Try(i, e, 0)}
  {
    var after := kids[Try(i, e, 0) := Unset];
    forall j | 0 <= j < i ensures StepGood(plan, after, j) && plan[j].expected != [] {
      assert StepGood(plan, kids, j);
      StepGoodFrame(plan, kids, after, j, i);
    }
  }

  /** With room in step i, the first try that a pass at it makes is of a missing child. */
  lemma FirstTryIsMissing(plan: Plan, p: Pass)
    requires FirstOnly(plan, p.view, |p.verdicts|) && Missing(plan, p.view, |p.verdicts|) != {}
    requires |InFlight(p.view, |p.verdicts|)| < Cap(plan[|p.verdicts|])
    ensures FirstTries(plan, p) != [] && FirstTries(plan, p)[0] in Missing(plan, p.view, |p.verdicts|)
  {
    var i := |p.verdicts|;
    var m :| m in Missing(plan, p.view, i);
    var x :| 0 <= x < |plan[i].expected| && plan[i].expected[x] == m;
    MakesAMissing(plan, p.view, i, 0, |InFlight(p.view, i)|);
  }

  lemma AllFound(plan: Plan, kids: Kids, i: nat)
    requires Ahead(plan, kids, i)
    ensures forall j {:trigger FoundPassed(plan, Blank(plan)[0].steps, kids, j)} :: 0 <= j < i ==> FoundPassed(plan, Blank(plan)[0].steps, kids, j)
  {
    forall j | 0 <= j < i ensures FoundPassed(plan, Blank(plan)[0].steps, kids, j) {
      assert StepGood(plan, kids, j);
    }
  }

  /** A pass makes one missing child and goes on. */
  lemma MakeOneMore(plan: Plan, kids: Kids, i: nat) returns (es: seq<Event>, e: Child)
    requires Ahead(plan, kids, i) && Missing(plan, kids, i) != {} && |InFlight(kids, i)| < Cap(plan[i])
    ensures e in Missing(plan, kids, i)
    ensures var after := kids[Try(i, e, 0) := Unset];
            var p := PassAt(Blank(plan), 0, kids, i);
            var view := if |InStep(kids, i)| < |plan[i].expected| then after else kids;
            Leads(plan, World(Blank(plan), kids, None, {}), es,
                  World(Blank(plan), after, Some(p.(view := view, gathering := true)), {}))
  {
    var h := Blank(plan);
    AllFound(plan, kids, i);
    es := PassReaches(plan, h, 0, kids, {}, i);
    var p := PassAt(h, 0, kids, i);
    var w := World(h, kids, Some(p), {});
    PassesSkipNothing(plan, i);
    FirstTryIsMissing(plan, p);
    e := FirstTries(plan, p)[0];
    var after := kids[Try(i, e, 0) := Unset];
    CreateOneFirst(kids, i, FirstTries(plan, p));
    assert Ensured(plan, w, 1) == after;
    Then(plan, World(h, kids, None, {}), es, w, Ensure(1, after));
    es := es + [Ensure(1, after)];
  }

  /** A pass makes one missing child and is given up. */
  lemma MakeOne(plan: Plan, kids: Kids, i: nat) returns (es: seq<Event>, e: Child)
    requires Ahead(plan, kids, i) && Missing(plan, kids, i) != {} && |InFlight(kids, i)| < Cap(plan[i])
    ensures e in Missing(plan, kids, i)
    ensures var after := kids[Try(i, e, 0) := Unset];
            && Leads(plan, World(Blank(plan), kids, None, {}), es, World(Blank(plan), after, None, {}))
            && Ahead(plan, after, i) && Missing(plan, after, i) == Missing(plan, kids, i) - {e}
            && InFlight(after, i) == InFlight(kids, i) + {Try(i, e, 0)}
  {
    var made;
    made, e := MakeOneMore(plan, kids, i);
    var after := kids[Try(i, e, 0) := Unset];
    var view := if |InStep(kids, i)| < |plan[i].expected| then after else kids;
    Then(plan, World(Blank(plan), kids, None, {}), made,
         World(Blank(plan), after, Some(PassAt(Blank(plan), 0, kids, i).(view := view, gathering := true)), {}), Drop);
    OneMore(plan, kids, i, e);
    es := made + [Drop];
  }

  lemma CreateOneFirst(kids: Kids, i: nat, children: seq<Child>)
    requires children != [] && Try(i, children[0], 0) !in kids
    ensures CreateFirst(kids, i, children[..1]) == kids[Try(i, children[0], 0) := Unset]
  {
    var one := children[..1];
    assert one[0] == children[0] && one[1..] == [];
  }

  /** That child does well. */
  lemma DoesWell(plan: Plan, kids: Kids, i: nat, e: Child, h: seq<Status>)
    requires Ahead(plan, kids, i) && Try(i, e, 0) in kids && kids[Try(i, e, 0)] == Unset && h != []
    ensures var after := kids[Try(i, e, 0) := Good(plan[i])];
            && Leads(plan, World(h, kids, None, {}), [KidMoves(Try(i, e, 0), Good(plan[i]))], World(h, after, None, {}))
            && Ahead(plan, after, i) && Missing(plan, after, i) == Missing(plan, kids, i)
            && InFlight(after, i) == InFlight(kids, i) - {Try(i, e, 0)}
  {
    var after := kids[Try(i, e, 0) := Good(plan[i])];
    LeadsOne(plan, World(h, kids, None, {}), KidMoves(Try(i, e, 0), Good(plan[i])));
    forall j | 0 <= j < i ensures StepGood(plan, after, j) && plan[j].expected != [] {
      assert StepGood(plan, kids, j);
      StepGoodFrame(plan, kids, after, j, i);
    }
  }

  /** The children of step i made one after the other, each doing well, until only r are missing. */
  lemma {:induction false} FillTo(plan: Plan, kids: Kids, i: nat, r: nat) returns (es: seq<Event>, after: Kids)
    requires Ahead(plan, kids, i) && plan[i].expected != [] && InFlight(kids, i) == {} && r <= |Missing(plan, kids, i)|
    requires forall t {:trigger t in kids} :: t in kids && t.step == i ==> kids[t] == Good(plan[i])
    requires forall t {:trigger t in kids} :: t in kids ==> t.step <= i
    ensures Leads(plan, World(Blank(plan), kids, None, {}), es, World(Blank(plan), after, None, {}))
    ensures Ahead(plan, after, i) && InFlight(after, i) == {} && |Missing(plan, after, i)| == r
    ensures forall t {:trigger t in after} :: t in after && t.step == i ==> after[t] == Good(plan[i])
    ensures forall t {:trigger t in after} :: t in after ==> t.step <= i
    decreases |Missing(plan, kids, i)|
  {
    var w := World(Blank(plan), kids, None, {});
    if |Missing(plan, kids, i)| == r {
      assert Run(plan, w, []) && AllLive(plan, w, []);
      return [], kids;
    }
    var first, e := MakeOne(plan, kids, i);
    var made := kids[Try(i, e, 0) := Unset];
    DoesWell(plan, made, i, e, Blank(plan));
    var moved := [KidMoves(Try(i, e, 0), Good(plan[i]))];
    var well := made[Try(i, e, 0) := Good(plan[i])];
    LeadsOn(plan, w, first, World(Blank(plan), made, None, {}), moved, World(Blank(plan), well, None, {}));
    assert |Missing(plan, well, i)| == |Missing(plan, kids, i)| - 1;
    var rest;
    rest, after := FillTo(plan, well, i, r);
    LeadsOn(plan, w, first + moved, World(Blank(plan), well, None, {}), rest, World(Blank(plan), after, None, {}));
    es := first + moved + rest;
  }

  /** From the start, all steps before i do well. */
  lemma {:induction false} FillSteps(plan: Plan, i: nat) returns (es: seq<Event>, after: Kids)
    requires i < |plan| && forall j {:trigger plan[j]} :: 0 <= j < i ==> plan[j].expected != []
    ensures Leads(plan, Init(plan, Running), es, World(Blank(plan), after, None, {}))
    ensures Ahead(plan, after, i)
    ensures forall t {:trigger t in after} :: t in after ==> t.step < i
  {
    var w := Init(plan, Running);
    if i == 0 {
      assert Run(plan, w, []) && AllLive(plan, w, []);
      return [], map[];
    }
    var before, kids := FillSteps(plan, i - 1);
    assert InFlight(kids, i - 1) == {};
    var more;
    more, after := FillTo(plan, kids, i - 1, 0);
    LeadsOn(plan, w, before, World(Blank(plan), kids, None, {}), more, World(Blank(plan), after, None, {}));
    es := before + more;
    NoneMissing(plan, after, i - 1);
  }

  lemma NoneMissing(plan: Plan, kids: Kids, i: nat)
    requires FirstOnly(plan, kids, i) && Missing(plan, kids, i) == {}
    requires forall t {:trigger t in kids} :: t in kids && t.step == i ==> kids[t] == Good(plan[i])
    ensures StepGood(plan, kids, i)
  {
    var expected := plan[i].expected;
    forall e | e in expected ensures Try(i, e, 0) in kids {
      assert e !in Missing(plan, kids, i);
    }
  }

  // ----- A timeout before the last step -----------------------------------------------

  /** Gathering first tries that have done well or not ended asks for no retry; it is done only if none is missing or at work. */
  lemma {:induction false} NoneAgain(plan: Plan, kids: Kids, i: nat, k: nat)
    requires FirstOnly(plan, kids, i) && k <= |plan[i].expected|
    requires forall t {:trigger t in kids} :: t in kids && t.step == i ==> kids[t] == Good(plan[i]) || !IsTerminal(kids[t])
    ensures Gather(kids, i, plan[i], k).again == []
    ensures Gather(kids, i, plan[i], k).done ==>
              forall j {:trigger plan[i].expected[j]} :: 0 <= j < k ==> Try(i, plan[i].expected[j], 0) in kids && IsTerminal(kids[Try(i, plan[i].expected[j], 0)])
  {
    if k > 0 {
      NoneAgain(plan, kids, i, k - 1);
      var e := plan[i].expected[k - 1];
      if Try(i, e, 0) in kids {
        FirstIsLatest(kids, i, e, plan[i].retries);
      } else {
        NoneYet(kids, i, e, plan[i].retries);
      }
    }
  }

  lemma NotDone(plan: Plan, kids: Kids, i: nat, e: Child)
    requires FirstOnly(plan, kids, i) && e in plan[i].expected
    requires forall t {:trigger t in kids} :: t in kids && t.step == i ==> kids[t] == Good(plan[i]) || !IsTerminal(kids[t])
    requires Try(i, e, 0) in kids ==> !IsTerminal(kids[Try(i, e, 0)])
    ensures var g := Gather(kids, i, plan[i], |plan[i].expected|); g.again == [] && !g.done
  {
    NoneAgain(plan, kids, i, |plan[i].expected|);
    var j :| 0 <= j < |plan[i].expected| && plan[i].expected[j] == e;
  }

  /** The marks when step k has been started and all before it have passed. */
  function StartedAt(plan: Plan, k: nat): seq<Mark>
    requires k < |plan|
  {
    ClosedUpTo(Blank(plan)[0].steps, k)[k := Started]
  }

  function Versions(plan: Plan, k: nat): seq<Status>
    requires k < |plan|
  {
    Blank(plan) + [Status(Running, StartedAt(plan, k))]
  }

  /** Step k waits for a last child t; all its others, and all steps before it, have done well. */
  ghost predicate WaitsFor(plan: Plan, kids: Kids, k: nat, t: Try) {
    && Ahead(plan, kids, k) && Missing(plan, kids, k) == {}
    && t in kids && t.step == k && t.attempt == 0 && kids[t] == Unset
    && (forall u {:trigger u in kids} :: u in kids && u.step == k && u != t ==> kids[u] == Good(plan[k]))
    && (forall u {:trigger u in kids} :: u in kids ==> u.step <= k)
  }

  /** From the start to a step that is recorded as started and waits for its last child. */
  lemma ComeToWait(plan: Plan, k: nat) returns (es: seq<Event>, kids: Kids, t: Try)
    requires k < |plan| && forall j {:trigger plan[j]} :: 0 <= j <= k ==> plan[j].expected != []
    ensures Leads(plan, Init(plan, Running), es, World(Versions(plan, k), kids, None, {}))
    ensures WaitsFor(plan, kids, k, t)
  {
    var w := Init(plan, Running);
    var filled, before := FillSteps(plan, k);
    assert InFlight(before, k) == {};
    assert plan[k].expected[0] in Missing(plan, before, k);
    var more, most := FillTo(plan, before, k, 1);
    LeadsOn(plan, w, filled, World(Blank(plan), before, None, {}), more, World(Blank(plan), most, None, {}));
    var made, e := MakeOneMore(plan, most, k);
    OneMore(plan, most, k, e);
    t := Try(k, e, 0);
    kids := most[t := Unset];
    OneLeft(Missing(plan, most, k), e);
    var view := if |InStep(most, k)| < |plan[k].expected| then kids else most;
    var p := PassAt(Blank(plan), 0, most, k).(view := view, gathering := true);
    var w2 := World(Blank(plan), kids, Some(p), {});
    LeadsOn(plan, w, filled + more, World(Blank(plan), most, None, {}), made, w2);
    PassesSkipNothing(plan, k);
    NotDone(plan, view, k, e);
    Then(plan, w, filled + more + made, w2, Wait(0, Stored));
    assert Waiting(p) == StartedAt(plan, k);
    es := filled + more + made + [Wait(0, Stored)];
  }

  lemma OneLeft<T>(s: set<T>, e: T)
    requires |s| == 1 && e in s
    ensures s - {e} == {}
  {
    assert |s - {e}| == 0;
  }

  /** The pass that finds step k overdue, and what it holds then. */
  function Overdue(plan: Plan, view: Kids, k: nat): Pass
    requires k < |plan|
  {
    Pass(|Versions(plan, k)|, StartedAt(plan, k)[k := Closed(Failed)], Passes(k) + [Some(Failed)], view, false)
  }

  lemma RecordedPassed(plan: Plan, kids: Kids, k: nat)
    requires k < |plan|
    ensures var steps := StartedAt(plan, k);
            && (forall j {:trigger FoundPassed(plan, steps, kids, j)} :: 0 <= j < k ==> FoundPassed(plan, steps, kids, j))
            && ClosedUpTo(steps, k) == steps
  {}

  /** The versions when step k has timed out. */
  function VersionsLate(plan: Plan, k: nat): seq<Status>
    requires k < |plan|
  {
    Versions(plan, k) + [Status(Running, StartedAt(plan, k))]
  }

  /** A pass at step k that finds it waiting ends it by its timeout. */
  lemma WaitsTooLong(plan: Plan, kids: Kids, k: nat, t: Try) returns (es: seq<Event>)
    requires k < |plan| && plan[k].timeout && WaitsFor(plan, kids, k, t)
    ensures Leads(plan, World(Versions(plan, k), kids, Some(PassAt(Versions(plan, k), 1, kids, k)), {}), es,
                  World(VersionsLate(plan, k), kids, Some(Overdue(plan, kids, k)), {k}))
  {
    var p := PassAt(Versions(plan, k), 1, kids, k);
    var w := World(Versions(plan, k), kids, Some(p), {});
    RecordedPassed(plan, kids, k);
    PassesSkipNothing(plan, k);
    assert FirstTries(plan, p)[..0] == [];
    LeadsOne(plan, w, Ensure(0, kids));
    var w1 := w.(pass := Some(p.(gathering := true)));
    NotDone(plan, kids, k, t.child);
    Then(plan, w, [Ensure(0, kids)], w1, Wait(0, TimedOut));
    assert {} + {k} == {k};
    es := [Ensure(0, kids)] + [Wait(0, TimedOut)];
  }

  lemma TimesOut(plan: Plan, kids: Kids, k: nat, t: Try) returns (es: seq<Event>)
    requires k < |plan| && plan[k].timeout && WaitsFor(plan, kids, k, t)
    ensures Leads(plan, World(Versions(plan, k), kids, None, {}), es,
                  World(VersionsLate(plan, k), kids, Some(Overdue(plan, kids, k)), {k}))
  {
    RecordedPassed(plan, kids, k);
    var reach := PassReaches(plan, Versions(plan, k), 1, kids, {}, k);
    var late := WaitsTooLong(plan, kids, k, t);
    LeadsOn(plan, World(Versions(plan, k), kids, None, {}), reach,
            World(Versions(plan, k), kids, Some(PassAt(Versions(plan, k), 1, kids, k)), {}), late,
            World(VersionsLate(plan, k), kids, Some(Overdue(plan, kids, k)), {k}));
    es := reach + late;
  }

  /** A pass that has got to a step without a child makes one. */
  lemma MakeNext(plan: Plan, w: World, es: seq<Event>, w1: World) returns (more: seq<Event>, u: Try)
    requires Leads(plan, w, es, w1) && w1.history != [] && w1.pass.Some?
    requires var p := w1.pass.value;
             && AtOpenStep(plan, p) && !p.gathering && plan[|p.verdicts|].expected != []
             && p.view == w1.kids && forall t {:trigger t in w1.kids} :: t in w1.kids ==> t.step != |p.verdicts|
    ensures u.step == |w1.pass.value.verdicts| && u.attempt == 0
    ensures Leads(plan, w, more, w1.(kids := w1.kids[u := Unset], pass := None))
  {
    var p := w1.pass.value;
    var i := |p.verdicts|;
    assert InFlight(p.view, i) == {};
    assert plan[i].expected[0] in Missing(plan, p.view, i);
    FirstTryIsMissing(plan, p);
    u := Try(i, FirstTries(plan, p)[0], 0);
    var after := w1.kids[u := Unset];
    CreateOneFirst(w1.kids, i, FirstTries(plan, p));
    assert Ensured(plan, w1, 1) == after;
    Then(plan, w, es, w1, Ensure(1, after));
    Then(plan, w, es + [Ensure(1, after)], After(plan, w1, Ensure(1, after)), Drop);
    more := es + [Ensure(1, after)] + [Drop];
  }

  /** A child of step k + 1 is out of order while step k is neither recorded nor done, if all before it passed. */
  lemma OutOfOrder(plan: Plan, w: World, k: nat, u: Try)
    requires k + 1 < |plan| && w.history != [] && w.pass.None? && u in w.kids && u.step == k + 1
    requires Now(w).steps == StartedAt(plan, k)
    requires AllGood(plan, w.kids, k)
    requires !Gather(w.kids, k, plan[k], |plan[k].expected|).done
    ensures !InOrder(plan, w, k + 1)
  {
    var n := k + 1;
    if exists prior: seq<Verdict> :: LeadsTo(plan, w, prior, n) {
      var prior: seq<Verdict> :| LeadsTo(plan, w, prior, n);
      NotJustified(plan, w, k);
      PriorPasses(plan, w, k, prior, k);
      assert false;
    }
  }

  lemma NotJustified(plan: Plan, w: World, k: nat)
    requires k + 1 < |plan| && w.history != [] && w.pass.None? && Now(w).steps == StartedAt(plan, k)
    requires !Gather(w.kids, k, plan[k], |plan[k].expected|).done
    ensures forall v :: !Justified(plan, w, k, v)
  {
    assert StartedAt(plan, k)[k] == Started;
  }

  /** A verdict for an earlier step can only be that it passed. */
  lemma PriorPassed(plan: Plan, w: World, k: nat, j: nat, v: Phase)
    requires j < k < |plan| && w.history != [] && w.pass.None? && Justified(plan, w, j, v)
    requires Now(w).steps == StartedAt(plan, k)
    requires StepGood(plan, w.kids, j) && plan[j].expected != []
    ensures v == Passed
  {
    assert StartedAt(plan, k)[j] == Closed(Passed);
    GoodPasses(plan, w.kids, j);
  }

  lemma {:induction false} PriorPasses(plan: Plan, w: World, k: nat, prior: seq<Verdict>, n: nat)
    requires n <= k && k + 1 < |plan| && w.history != [] && w.pass.None? && LeadsTo(plan, w, prior, k + 1)
    requires Now(w).steps == StartedAt(plan, k)
    requires AllGood(plan, w.kids, k)
    ensures prior[..n] == Passes(n) && !ShouldSkip(prior[..n], plan)
  {
    if n > 0 {
      PriorPasses(plan, w, k, prior, n - 1);
      assert prior[n - 1].None? <==> ShouldSkip(prior[..n - 1], plan);
      assert StepGood(plan, w.kids, n - 1);
      PriorPassed(plan, w, k, n - 1, prior[n - 1].value);
      assert prior[..n] == prior[..n - 1] + [prior[n - 1]];
      assert prior[..n] == Passes(n);
    }
    PassesSkipNothing(plan, n);
  }

  lemma WaitsStays(plan: Plan, kids: Kids, k: nat, t: Try, u: Try)
    requires WaitsFor(plan, kids, k, t) && u.step == k + 1
    ensures var after := kids[u := Unset];
            && AllGood(plan, after, k)
            && !Gather(after, k, plan[k], |plan[k].expected|).done
  {
    var after := kids[u := Unset];
    forall j | 0 <= j < k ensures StepGood(plan, after, j) && plan[j].expected != [] {
      assert StepGood(plan, kids, j);
      StepGoodFrame(plan, kids, after, j, k + 1);
    }
    NotDone(plan, after, k, t.child);
  }

  /** Where an overdue step does not stop the next one, that one is started, and the timeout forgotten. */
  lemma ForgottenTimeout(plan: Plan, k: nat) returns (es: seq<Event>)
    requires k + 1 < |plan| && plan[k].timeout && (plan[k].optional || plan[k + 1].always)
    requires forall j {:trigger plan[j]} :: 0 <= j <= k + 1 ==> plan[j].expected != []
    ensures Run(plan, Init(plan, Running), es) && AllLive(plan, Init(plan, Running), es)
    ensures !Orderly(plan, End(plan, Init(plan, Running), es), k + 1)
  {
    var w := Init(plan, Running);
    var come, kids, t := ComeToWait(plan, k);
    var late := TimesOut(plan, kids, k, t);
    var h := VersionsLate(plan, k);
    var w1 := World(h, kids, Some(Overdue(plan, kids, k)), {k});
    LeadsOn(plan, w, come, World(Versions(plan, k), kids, None, {}), late, w1);
    var prior := Passes(k) + [Some(Failed)];
    assert !ShouldSkip(prior, plan);
    var u;
    es, u := MakeNext(plan, w, come + late, w1);
    WaitsStays(plan, kids, k, t, u);
    OutOfOrder(plan, World(h, kids[u := Unset], None, {k}), k, u);
  }

  /** Once the child it waits for has done well, the step has, whatever children later steps have. */
  lemma WaitedFor(plan: Plan, kids: Kids, k: nat, t: Try, after: Kids)
    requires k < |plan| && WaitsFor(plan, kids, k, t)
    requires forall u: Try {:trigger u in after} :: u.step <= k ==> (u in after <==> u in kids) && (u in after && u != t ==> after[u] == kids[u])
    requires t in after && after[t] == Good(plan[k])
    ensures StepGood(plan, after, k)
  {
    forall e | e in plan[k].expected ensures Try(k, e, 0) in after && after[Try(k, e, 0)] == Good(plan[k]) {
      assert e !in Missing(plan, kids, k);
      assert Try(k, e, 0) in kids && Try(k, e, 0).step <= k;
    }
  }

  /** A pass at a step, working from the latest status and a live listing; step k has failed, and step k + 1 is skipped for it. */
  ghost predicate SkipsFor(plan: Plan, w: World, k: nat) {
    && w.history != [] && w.pass.Some?
    && var p := w.pass.value;
    && !p.gathering && p.base == |w.history| - 1 && p.view == w.kids
    && k + 1 < |p.verdicts| <= |plan| == |p.steps|
    && p.verdicts[k] == Some(Failed) && !plan[k].optional && p.steps[k + 1] == Bypassed
    && (forall j {:trigger p.steps[j]} :: |p.verdicts| <= j < |plan| ==> p.steps[j] == Unmarked)
    && forall t {:trigger t in w.kids} :: t in w.kids ==> t.step <= k
  }

  /** The status is written once more, with step k + 1 as skipped; steps behind it may have got children. */
  ghost predicate SkipStored(plan: Plan, w: World, k: nat, w': World)
    requires w.history != []
  {
    && |w'.history| == |w.history| + 1 && w.history <= w'.history && w'.pass.None? && w'.timedOut == w.timedOut
    && k + 1 < |Now(w').steps| && Now(w').steps[k + 1] == Bypassed
    && forall t: Try {:trigger t in w'.kids} :: t.step <= k + 1 ==> (t in w'.kids <==> t in w.kids) && (t in w'.kids ==> w'.kids[t] == w.kids[t])
  }

  /** The children of a step that runs always are made, and the wait for them is written. */
  lemma WaitsBehind(plan: Plan, w: World, k: nat) returns (es: seq<Event>, w2: World)
    requires SkipsFor(plan, w, k) && |w.pass.value.verdicts| < |plan|
    requires plan[|w.pass.value.verdicts|].always && plan[|w.pass.value.verdicts|].expected != []
    ensures Leads(plan, w, es, w2) && SkipStored(plan, w, k, w2)
  {
    var p := w.pass.value;
    var i := |p.verdicts|;
    var first := FirstTries(plan, p);
    assert plan[i].expected[0] in Missing(plan, p.view, i);
    assert InFlight(p.view, i) == {} && InStep(p.view, i) == {};
    FirstTryIsMissing(plan, p);
    assert first[..|first|] == first;
    var kids := CreateFirst(w.kids, i, first);
    assert Ensured(plan, w, |first|) == kids;
    EnsureSoFar(plan, w, k);
    LeadsOne(plan, w, Ensure(|first|, kids));
    var w1 := w.(kids := kids, pass := Some(p.(view := kids, gathering := true)));
    Then(plan, w, [Ensure(|first|, kids)], w1, Wait(0, Stored));
    es := [Ensure(|first|, kids)] + [Wait(0, Stored)];
    w2 := After(plan, w1, Wait(0, Stored));
    CreateFirstIs(w.kids, i, first);
  }

  /** What the pass then gathers. */
  lemma EnsureSoFar(plan: Plan, w: World, k: nat)
    requires SkipsFor(plan, w, k) && |w.pass.value.verdicts| < |plan| && FirstTries(plan, w.pass.value) != []
    ensures var p := w.pass.value;
            var i := |p.verdicts|;
            var kids := CreateFirst(w.kids, i, FirstTries(plan, p));
            && Grows(w.kids, kids)
            && var g := Gather(kids, i, plan[i], |plan[i].expected|);
            g.again == [] && !g.done
  {
    var p := w.pass.value;
    var i := |p.verdicts|;
    var first := FirstTries(plan, p);
    var kids := CreateFirst(w.kids, i, first);
    ToCreateExpected(p.view, i, plan[i], 0, |InFlight(p.view, i)|);
    CreateFirstIs(w.kids, i, first);
    forall t | t in kids && t.step == i ensures t.attempt == 0 && t.child in plan[i].expected && kids[t] == Unset {
      CreateFirstAt(w.kids, i, first, t);
    }
    assert first[0] in first;
    assert IsFirstOf(Try(i, first[0], 0), i, first);
    NotDone(plan, kids, i, first[0]);
  }

  /** The pass skips on until it waits for a step that runs always, or finishes. */
  lemma {:induction false} SkipsOn(plan: Plan, w: World, k: nat) returns (es: seq<Event>, w2: World)
    requires SkipsFor(plan, w, k) && forall j {:trigger plan[j]} :: 0 <= j < |plan| ==> plan[j].expected != []
    ensures Leads(plan, w, es, w2) && SkipStored(plan, w, k, w2)
    decreases |plan| - |w.pass.value.verdicts|
  {
    var p := w.pass.value;
    var i := |p.verdicts|;
    if i == |plan| {
      LeadsOne(plan, w, Finish(true));
      return [Finish(true)], After(plan, w, Finish(true));
    }
    if plan[i].always {
      es, w2 := WaitsBehind(plan, w, k);
      return;
    }
    assert p.verdicts[k] == Some(Failed);
    assert ShouldSkip(p.verdicts, plan);
    LeadsOne(plan, w, Skip);
    var w1 := After(plan, w, Skip);
    es, w2 := SkipsOn(plan, w1, k);
    LeadsOn(plan, w, [Skip], w1, es, w2);
    es := [Skip] + es;
  }

  /** Step k is overdue, and a pass skips step k + 1 for it. */
  lemma ComeToFail(plan: Plan, k: nat) returns (es: seq<Event>, w: World, t: Try)
    requires k + 1 < |plan| && plan[k].timeout && !plan[k].optional && !plan[k + 1].always
    requires forall j {:trigger plan[j]} :: 0 <= j < |plan| ==> plan[j].expected != []
    ensures Leads(plan, Init(plan, Running), es, w) && SkipsFor(plan, w, k)
    ensures |w.history| == 3 && w.history[1] == Status(Running, StartedAt(plan, k)) && w.timedOut == {k}
    ensures WaitsFor(plan, w.kids, k, t)
  {
    var start := Init(plan, Running);
    var come, kids;
    come, kids, t := ComeToWait(plan, k);
    var late := TimesOut(plan, kids, k, t);
    var p := Overdue(plan, kids, k);
    var w1 := World(VersionsLate(plan, k), kids, Some(p), {k});
    LeadsOn(plan, start, come, World(Versions(plan, k), kids, None, {}), late, w1);
    assert p.verdicts[k] == Some(Failed);
    assert ShouldSkip(p.verdicts, plan);
    Then(plan, start, come + late, w1, Skip);
    es, w := come + late + [Skip], After(plan, w1, Skip);
  }

  /** That is written; the overdue child does well after all. */
  lemma ComeToSkip(plan: Plan, k: nat) returns (es: seq<Event>, h: seq<Status>, kids: Kids)
    requires k + 1 < |plan| && plan[k].timeout && !plan[k].optional && !plan[k + 1].always
    requires forall j {:trigger plan[j]} :: 0 <= j < |plan| ==> plan[j].expected != []
    ensures Leads(plan, Init(plan, Running), es, World(h, kids, None, {k}))
    ensures |h| == 4 && h[1] == Status(Running, StartedAt(plan, k))
    ensures k + 1 < |h[3].steps| && h[3].steps[k + 1] == Bypassed
    ensures StepGood(plan, kids, k) && forall t {:trigger t in kids} :: t in kids ==> t.step != k + 1
  {
    var start := Init(plan, Running);
    var fail, w, t := ComeToFail(plan, k);
    var on, w2 := SkipsOn(plan, w, k);
    LeadsOn(plan, start, fail, w, on, w2);
    Then(plan, start, fail + on, w2, KidMoves(t, Good(plan[k])));
    es := fail + on + [KidMoves(t, Good(plan[k]))];
    h, kids := w2.history, w2.kids[t := Good(plan[k])];
    WaitedFor(plan, w.kids, k, t, kids);
  }

  /**
   Where an overdue step stops the next one, that one is skipped, and a pass that still reads the status from
   before has a child made for it, the overdue step having passed by then.
   */
  lemma OldStatus(plan: Plan, k: nat) returns (es: seq<Event>)
    requires k + 1 < |plan| && plan[k].timeout && !plan[k].optional && !plan[k + 1].always
    requires forall j {:trigger plan[j]} :: 0 <= j < |plan| ==> plan[j].expected != []
    ensures Run(plan, Init(plan, Running), es) && AllLive(plan, Init(plan, Running), es)
    ensures !Orderly(plan, End(plan, Init(plan, Running), es), k + 1)
  {
    var w := Init(plan, Running);
    var come, h, kids := ComeToSkip(plan, k);
    RecordedPassed(plan, kids, k);
    var reach := PassReaches(plan, h, 1, kids, {k}, k + 1);
    var w1 := World(h, kids, Some(PassAt(h, 1, kids, k + 1)), {k});
    LeadsOn(plan, w, come, World(h, kids, None, {k}), reach, w1);
    PassesSkipNothing(plan, k + 1);
    var u;
    es, u := MakeNext(plan, w, come + reach, w1);
    var last := World(h, kids[u := Unset], None, {k});
    assert u in last.kids && last.history[3].steps[u.step] == Bypassed;
  }

  /**
   For any step h of a plan: the children of the steps up to h come in turn in all runs, and none of these
   steps is skipped once it has a child, exactly when no step before h has a timeout. It takes no old
   listing to go wrong.
   */
  lemma OrderlyExactlyWithoutTimeouts(plan: Plan, h: nat)
    requires h < |plan| && forall j {:trigger plan[j]} :: 0 <= j < |plan| ==> plan[j].expected != []
    ensures NoTimeoutBefore(plan, h) <==>
            forall phase, es :: Run(plan, Init(plan, phase), es) ==> Orderly(plan, End(plan, Init(plan, phase), es), h)
    ensures NoTimeoutBefore(plan, h) <==>
            forall phase, es :: Run(plan, Init(plan, phase), es) && AllLive(plan, Init(plan, phase), es) ==>
              Orderly(plan, End(plan, Init(plan, phase), es), h)
  {
    if NoTimeoutBefore(plan, h) {
      forall phase, es | Run(plan, Init(plan, phase), es) ensures Orderly(plan, End(plan, Init(plan, phase), es), h) {
        RunsAreOrderly(plan, phase, es, h);
      }
    } else {
      var k: nat :| k < h && plan[k].timeout;
      var es;
      if plan[k].optional || plan[k + 1].always {
        es := ForgottenTimeout(plan, k);
      } else {
        es := OldStatus(plan, k);
      }
      assert !Orderly(plan, End(plan, Init(plan, Running), es), h);
    }
  }

  // ----- More retries than the cap allows ---------------------------------------------

  /** Children of step i made until as many are in flight as the cap allows. */
  lemma {:induction false} FillFlight(plan: Plan, kids: Kids, i: nat) returns (es: seq<Event>, after: Kids)
    requires Ahead(plan, kids, i) && |InFlight(kids, i)| <= Cap(plan[i]) < |Children(plan[i])|
    requires forall t {:trigger t in kids} :: t in kids && t.step == i ==> kids[t] == Unset
    ensures Leads(plan, World(Blank(plan), kids, None, {}), es, World(Blank(plan), after, None, {}))
    ensures Ahead(plan, after, i) && |InFlight(after, i)| == Cap(plan[i])
    ensures forall t {:trigger t in after} :: t in after && t.step == i ==> after[t] == Unset
    decreases Cap(plan[i]) - |InFlight(kids, i)|
  {
    var w := World(Blank(plan), kids, None, {});
    if |InFlight(kids, i)| == Cap(plan[i]) {
      assert Run(plan, w, []) && AllLive(plan, w, []);
      return [], kids;
    }
    assert InStep(kids, i) == InFlight(kids, i);
    SomeMissing(plan, kids, i);
    var made, e := MakeOne(plan, kids, i);
    var more := kids[Try(i, e, 0) := Unset];
    assert Try(i, e, 0) !in InFlight(kids, i);
    var rest;
    rest, after := FillFlight(plan, more, i);
    LeadsOn(plan, w, made, World(Blank(plan), more, None, {}), rest, World(Blank(plan), after, None, {}));
    es := made + rest;
  }

  /** The children with a try are as many as the tries. */
  lemma SomeMissing(plan: Plan, kids: Kids, i: nat)
    requires FirstOnly(plan, kids, i) && |InStep(kids, i)| < |Children(plan[i])|
    ensures Missing(plan, kids, i) != {}
  {
    if Missing(plan, kids, i) == {} {
      forall e | e in Children(plan[i]) ensures e in ChildrenOf(InStep(kids, i)) {
        assert e !in Missing(plan, kids, i);
        assert Try(i, e, 0) in InStep(kids, i);
      }
      SubsetSize(Children(plan[i]), ChildrenOf(InStep(kids, i)));
      NoMoreChildren(InStep(kids, i));
    }
  }

  lemma {:induction false} NoMoreChildren(ts: set<Try>)
    ensures |ChildrenOf(ts)| <= |ts|
    decreases ts
  {
    if ts != {} {
      var x :| x in ts;
      NoMoreChildren(ts - {x});
      assert ChildrenOf(ts) <= ChildrenOf(ts - {x}) + {x.child};
      SubsetSize(ChildrenOf(ts), ChildrenOf(ts - {x}) + {x.child});
    }
  }

  /** A child that is to be tried again is among those the step asks for again. */
  lemma {:induction false} AsksAgain(kids: Kids, i: nat, s: StepSpec, k: nat, j: nat)
    requires j < k <= |s.expected| && s.retries > 0
    requires Latest(kids, i, s.expected[j], s.retries) == Some(0) && kids[Try(i, s.expected[j], 0)] == Error
    ensures Try(i, s.expected[j], 1) in Gather(kids, i, s, k).again && !Gather(kids, i, s, k).done
  {
    if j < k - 1 {
      AsksAgain(kids, i, s, k - 1, j);
    }
  }

  lemma {:induction false} MadeAgain(kids: Kids, again: seq<Try>, t: Try)
    requires t !in kids && t in again
    ensures t in CreateAgain(kids, again) && CreateAgain(kids, again)[t] == Unset
    decreases |again|
  {
    if again[0] == t {
      StaysUnset(Create(kids, t), again[1..], t);
    } else {
      MadeAgain(Create(kids, again[0]), again[1..], t);
    }
  }

  /** Making tries changes none that are there. */
  lemma {:induction false} StaysUnset(kids: Kids, again: seq<Try>, t: Try)
    requires t in kids
    ensures t in CreateAgain(kids, again) && CreateAgain(kids, again)[t] == kids[t]
    decreases |again|
  {
    if again != [] {
      StaysUnset(Create(kids, again[0]), again[1..], t);
    }
  }

  /** With a try failed and the cap used up by others, making that try again exceeds the cap. */
  lemma AgainExceeds(kids: Kids, again: seq<Try>, i: nat, t: Try)
    requires t !in kids && t in again && t.step == i
    ensures |InFlight(CreateAgain(kids, again), i)| > |InFlight(kids, i)|
  {
    var after := CreateAgain(kids, again);
    MadeAgain(kids, again, t);
    forall u | u in InFlight(kids, i) + {t} ensures u in InFlight(after, i) {
      if u != t {
        StaysUnset(kids, again, u);
      }
    }
    SubsetSize(InFlight(kids, i) + {t}, InFlight(after, i));
  }

  /** From the start to a step with as many children in flight as allowed, one of which then ends in error. */
  lemma ComeToError(plan: Plan, k: nat) returns (es: seq<Event>, kids: Kids, t: Try)
    requires k < |plan| && Cap(plan[k]) < |Children(plan[k])|
    requires forall j {:trigger plan[j]} :: 0 <= j < k ==> plan[j].expected != []
    ensures Leads(plan, Init(plan, Running), es, World(Blank(plan), kids, None, {}))
    ensures Ahead(plan, kids, k) && |InFlight(kids, k)| + 1 == Cap(plan[k]) && Missing(plan, kids, k) != {}
    ensures t.step == k && t.attempt == 0 && t in kids && kids[t] == Error && |InStep(kids, k)| == Cap(plan[k])
  {
    var w := Init(plan, Running);
    var filled, before := FillSteps(plan, k);
    assert InFlight(before, k) == {};
    var more, full := FillFlight(plan, before, k);
    LeadsOn(plan, w, filled, World(Blank(plan), before, None, {}), more, World(Blank(plan), full, None, {}));
    assert InStep(full, k) == InFlight(full, k);
    SomeMissing(plan, full, k);
    CapIsPositive(plan[k]);
    t :| t in InFlight(full, k);
    kids := full[t := Error];
    Then(plan, w, filled + more, World(Blank(plan), full, None, {}), KidMoves(t, Error));
    es := filled + more + [KidMoves(t, Error)];
    assert InFlight(kids, k) == InFlight(full, k) - {t};
    assert InStep(kids, k) == InStep(full, k) && Missing(plan, kids, k) == Missing(plan, full, k);
    forall j | 0 <= j < k ensures StepGood(plan, kids, j) && plan[j].expected != [] {
      assert StepGood(plan, full, j);
      StepGoodFrame(plan, full, kids, j, k);
    }
  }

  lemma CapIsPositive(s: StepSpec)
    requires Cap(s) < |Children(s)|
    ensures Cap(s) > 0
  {
    ChildrenFit(s);
  }

  /** With retries and more children than the cap allows, a run comes to exceed it, even with live listings. */
  lemma ParallelismFails(plan: Plan, k: nat) returns (es: seq<Event>)
    requires k < |plan| && !CapIsSafe(plan[k])
    requires forall j {:trigger plan[j]} :: 0 <= j < k ==> plan[j].expected != []
    ensures Run(plan, Init(plan, Running), es) && AllLive(plan, Init(plan, Running), es)
    ensures !AtWorkWithin(End(plan, Init(plan, Running), es).kids, plan[k], k)
  {
    var w := Init(plan, Running);
    CapMeaning(map[], plan[k], k);
    var come, kids, t := ComeToError(plan, k);
    var made, e := MakeOneMore(plan, kids, k);
    OneMore(plan, kids, k, e);
    var full := kids[Try(k, e, 0) := Unset];
    FewerThanExpected(plan, kids, k);
    var p := PassAt(Blank(plan), 0, kids, k).(view := full, gathering := true);
    var w1 := World(Blank(plan), full, Some(p), {});
    LeadsOn(plan, w, come, World(Blank(plan), kids, None, {}), made, w1);
    PassesSkipNothing(plan, k);
    var j :| 0 <= j < |plan[k].expected| && plan[k].expected[j] == t.child;
    FirstIsLatest(full, k, t.child, plan[k].retries);
    AsksAgain(full, k, plan[k], |plan[k].expected|, j);
    var again := Gathers(plan, p).again;
    assert again[..|again|] == again;
    Then(plan, w, come + made, w1, Wait(|again|, Stored));
    es := come + made + [Wait(|again|, Stored)];
    AgainExceeds(full, again, k, Try(k, t.child, 1));
    CapMeaning(CreateAgain(full, again), plan[k], k);
  }

  /** A step keeps within its parallelism in all runs exactly when its cap is safe, and so it is with live listings alone. */
  lemma ParallelismExactly(plan: Plan, k: nat)
    requires k < |plan| && forall j {:trigger plan[j]} :: 0 <= j < k ==> plan[j].expected != []
    ensures CapIsSafe(plan[k]) <==>
            forall phase, es :: Run(plan, Init(plan, phase), es) ==>
              AtWorkWithin(End(plan, Init(plan, phase), es).kids, plan[k], k)
    ensures CapIsSafe(plan[k]) <==>
            forall phase, es :: Run(plan, Init(plan, phase), es) && AllLive(plan, Init(plan, phase), es) ==>
              AtWorkWithin(End(plan, Init(plan, phase), es).kids, plan[k], k)
  {
    if CapIsSafe(plan[k]) {
      forall phase, es | Run(plan, Init(plan, phase), es)
        ensures AtWorkWithin(End(plan, Init(plan, phase), es).kids, plan[k], k)
      {
        ParallelismHolds(plan, phase, es, k);
      }
    } else {
      var es := ParallelismFails(plan, k);
    }
  }

  lemma FewerThanExpected(plan: Plan, kids: Kids, k: nat)
    requires k < |plan| && |InStep(kids, k)| == Cap(plan[k]) < |Children(plan[k])|
    ensures |InStep(kids, k)| < |plan[k].expected|
  {
    ChildrenFit(plan[k]);
  }
}
