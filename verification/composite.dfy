/**
 Composite runs: steps executed one after the other, each as a set of child runs with
 retries; what a step and the whole run come to; and one pass of the reconciler.
 */
module Composite {
  import opened Bytes
  import opened Phases

  // ----- Verdicts ---------------------------------------------------------------------

  /** In a negative step a pass counts as a failure and a failure as a pass. */
  function Judged(p: Phase, negative: bool): Phase {
    if negative && p == Passed then Failed else if negative && p == Failed then Passed else p
  }

  predicate Severe(p: Phase) {
    p == Aborted || p == Error
  }

  /** The first child, in order, that was aborted or ended in error. */
  function FirstSevere(children: seq<Phase>): Option<Phase> {
    if children == [] then None
    else if Severe(children[0]) then Some(children[0])
    else FirstSevere(children[1..])
  }

  function Aggregate(children: seq<Phase>, negative: bool): Phase {
    if children == [] then Failed
    else if FirstSevere(children).Some? then FirstSevere(children).value
    else if exists i :: 0 <= i < |children| && Judged(children[i], negative) == Failed then Failed
    else Passed
  }

  lemma {:induction false} FirstSevereMeaning(children: seq<Phase>)
    ensures FirstSevere(children) == None <==> forall i :: 0 <= i < |children| ==> !Severe(children[i])
    ensures FirstSevere(children).Some? ==>
              exists i :: 0 <= i < |children| && children[i] == FirstSevere(children).value && Severe(children[i])
                          && forall j :: 0 <= j < i ==> !Severe(children[j])
  {
    if children != [] && !Severe(children[0]) {
      FirstSevereMeaning(children[1..]);
      if FirstSevere(children).Some? {
        var i :| 0 <= i < |children| - 1 && children[1..][i] == FirstSevere(children[1..]).value
                 && Severe(children[1..][i]) && forall j :: 0 <= j < i ==> !Severe(children[1..][j]);
        assert children[i + 1] == children[1..][i];
        forall j | 0 <= j < i + 1 ensures !Severe(children[j]) {
          assert j > 0 ==> children[j] == children[1..][j - 1];
        }
      } else {
        forall i | 0 <= i < |children| ensures !Severe(children[i]) {
          assert i > 0 ==> children[i] == children[1..][i - 1];
        }
      }
    }
  }

  /** Children that have all ended give a step a verdict, never anything less. */
  lemma AggregateIsTerminal(children: seq<Phase>, negative: bool)
    ensures IsTerminal(Aggregate(children, negative))
  {
    FirstSevereMeaning(children);
  }

  /**
   A step passes when it has children and all do, or in a negative step all fail; it fails
   when none was aborted or in error and some failed, or in a negative step passed; else
   it ends as the first that was aborted or in error.
   */
  ghost predicate StepEnds(outcomes: seq<Phase>, negative: bool, v: Phase) {
    var good, bad := if negative then Failed else Passed, if negative then Passed else Failed;
    && v in {Passed, Failed, Error, Aborted}
    && (v == Passed <==> outcomes != [] && forall i :: 0 <= i < |outcomes| ==> outcomes[i] == good)
    && (v == Failed <==> outcomes == []
                         || ((forall i :: 0 <= i < |outcomes| ==> outcomes[i] !in {Aborted, Error})
                             && exists i :: 0 <= i < |outcomes| && outcomes[i] == bad))
    && (v in {Aborted, Error} ==>
          exists i :: 0 <= i < |outcomes| && outcomes[i] == v && forall j :: 0 <= j < i ==> outcomes[j] !in {Aborted, Error})
  }

  lemma AggregateEnds(outcomes: seq<Phase>, negative: bool)
    requires forall i :: 0 <= i < |outcomes| ==> outcomes[i] in {Passed, Failed, Error, Aborted}
    ensures StepEnds(outcomes, negative, Aggregate(outcomes, negative))
  {
    FirstSevereMeaning(outcomes);
  }

  method AggregateChildren(children: seq<Phase>, negative: bool) returns (p: Phase)
    ensures p == Aggregate(children, negative)
    ensures (forall i :: 0 <= i < |children| ==> children[i] in {Passed, Failed, Error, Aborted}) ==> StepEnds(children, negative, p)
  {
    if forall i :: 0 <= i < |children| ==> children[i] in {Passed, Failed, Error, Aborted} {
      AggregateEnds(children, negative);
    }
    if |children| == 0 {
      return Failed;
    }
    var haveFailed := false;
    for i := 0 to |children|
      invariant FirstSevere(children) == FirstSevere(children[i..])
      invariant haveFailed <==> exists k :: 0 <= k < i && Judged(children[k], negative) == Failed
    {
      if children[i] == Aborted || children[i] == Error {
        return children[i];
      }
      assert children[i..][1..] == children[i + 1..];
      if Judged(children[i], negative) == Failed {
        haveFailed := true;
      }
    }
    return if haveFailed then Failed else Passed;
  }

  predicate NeedsRetry(p: Phase, negative: bool) {
    p == Error || (p == Failed && !negative) || (p == Passed && negative)
  }

  // ----- Steps, children and tries ----------------------------------------------------

  /** One anticipated child of a step. */
  datatype Child = Child(testRef: string, index: nat)

  datatype StepSpec = StepSpec(expected: seq<Child>, retries: nat, negative: bool, optional: bool, always: bool,
                               parallelism: nat, timeout: bool)

  type Plan = seq<StepSpec>

  /** Try number attempt of a child of a step; it stands for the child run of that name. */
  datatype Try = Try(step: nat, child: Child, attempt: nat)

  /** The child runs that exist, and how each is doing. */
  type Kids = map<Try, Phase>

  /** The verdict of a step that ran; None stands for a skipped one. */
  type Verdict = Option<Phase>

  /** The newest try of a child, of those numbered up to n. */
  function Latest(kids: Kids, step: nat, e: Child, n: nat): (r: Option<nat>)
    ensures r.Some? ==> r.value <= n && Try(step, e, r.value) in kids
    ensures forall m {:trigger Try(step, e, m)} :: (if r.Some? then r.value + 1 else 0) <= m <= n ==> Try(step, e, m) !in kids
  {
    if Try(step, e, n) in kids then Some(n) else if n == 0 then None else Latest(kids, step, e, n - 1)
  }

  function Cap(s: StepSpec): nat {
    if s.parallelism == 0 then |s.expected| else s.parallelism
  }

  /** The tries of a step that have not ended. */
  function InFlight(kids: Kids, step: nat): set<Try> {
    set t | t in kids && t.step == step && !IsTerminal(kids[t])
  }

  /** The expected children from number k on that get a first try, while the cap allows. */
  function ToCreate(kids: Kids, step: nat, s: StepSpec, k: nat, inFlight: nat): seq<Child>
    requires k <= |s.expected|
    decreases |s.expected| - k
  {
    if k == |s.expected| || inFlight >= Cap(s) then []
    else if Latest(kids, step, s.expected[k], s.retries).Some? then ToCreate(kids, step, s, k + 1, inFlight)
    else [s.expected[k]] + ToCreate(kids, step, s, k + 1, inFlight + 1)
  }

  /** Creating a try that exists already changes nothing. */
  function Create(kids: Kids, t: Try): Kids {
    if t in kids then kids else kids[t := Unset]
  }

  function CreateFirst(kids: Kids, step: nat, children: seq<Child>): Kids
    decreases |children|
  {
    if children == [] then kids else CreateFirst(Create(kids, Try(step, children[0], 0)), step, children[1..])
  }

  function CreateAgain(kids: Kids, again: seq<Try>): Kids
    decreases |again|
  {
    if again == [] then kids else CreateAgain(Create(kids, again[0]), again[1..])
  }

  /** The outcomes of a step whose children are all done; else the tries to make again. */
  datatype Gathered = Gathered(outcomes: seq<Phase>, done: bool, again: seq<Try>)

  function GatherOne(kids: Kids, step: nat, s: StepSpec, e: Child, g: Gathered): Gathered {
    var n := Latest(kids, step, e, s.retries);
    if n.None? || !IsTerminal(kids[Try(step, e, n.value)]) then g.(done := false)
    else if n.value < s.retries && NeedsRetry(kids[Try(step, e, n.value)], s.negative) then
      g.(done := false, again := g.again + [Try(step, e, n.value + 1)])
    else g.(outcomes := g.outcomes + [kids[Try(step, e, n.value)]])
  }

  /** Over the first k expected children. */
  function Gather(kids: Kids, step: nat, s: StepSpec, k: nat): Gathered
    requires k <= |s.expected|
  {
    if k == 0 then Gathered([], true, [])
    else GatherOne(kids, step, s, s.expected[k - 1], Gather(kids, step, s, k - 1))
  }

  method GatherOutcomes(kids: Kids, step: nat, s: StepSpec) returns (outcomes: seq<Phase>, done: bool, again: seq<Try>)
    ensures var g := Gather(kids, step, s, |s.expected|);
            done == g.done && again == g.again && outcomes == if done then g.outcomes else []
    ensures done ==> again == []
  {
    outcomes, done, again := [], true, [];
    for k := 0 to |s.expected|
      invariant Gathered(outcomes, done, again) == Gather(kids, step, s, k)
      invariant done ==> again == []
    {
      var child, n := LatestAttempt(kids, step, s.expected[k], s.retries);
      if child.None? || !IsTerminal(child.value) {
        done := false;
      } else if n < s.retries && NeedsRetry(child.value, s.negative) {
        done := false;
        again := again + [Try(step, s.expected[k], n + 1)];
      } else {
        outcomes := outcomes + [child.value];
      }
    }
    if !done {
      outcomes := [];
    }
  }

  /** Looks for the newest try from the highest number down. */
  method LatestAttempt(kids: Kids, step: nat, e: Child, retries: nat) returns (child: Option<Phase>, n: nat)
    ensures match Latest(kids, step, e, retries)
            case None => child == None
            case Some(m) => n == m && child == Some(kids[Try(step, e, m)])
  {
    n := retries;
    while true
      invariant n <= retries && Latest(kids, step, e, retries) == Latest(kids, step, e, n)
      decreases n
    {
      if Try(step, e, n) in kids {
        return Some(kids[Try(step, e, n)]), n;
      }
      if n == 0 {
        return None, 0;
      }
      n := n - 1;
    }
  }

  // ----- Skipping and the parent's verdict --------------------------------------------

  /** The verdicts of the steps before one; the step is skipped if one of them calls for it. */
  function ShouldSkip(prior: seq<Verdict>, plan: Plan): bool
    requires |prior| < |plan|
  {
    !plan[|prior|].always
    && exists i :: 0 <= i < |prior| && prior[i].Some?
                   && (Severe(prior[i].value) || (prior[i].value == Failed && !plan[i].optional))
  }

  method ShouldSkipStep(prior: seq<Verdict>, plan: Plan) returns (skip: bool)
    requires |prior| < |plan|
    ensures skip == ShouldSkip(prior, plan)
  {
    if plan[|prior|].always {
      return false;
    }
    for i := 0 to |prior|
      invariant forall k :: 0 <= k < i && prior[k].Some? ==>
        !Severe(prior[k].value) && (prior[k].value == Failed ==> plan[k].optional)
    {
      if prior[i].None? || (plan[i].optional && prior[i].value == Failed) {
        continue;
      }
      if prior[i].value in {Failed, Aborted, Error} {
        return true;
      }
    }
    return false;
  }

  /** The executed steps' verdicts that count for the parent, skipped and optional steps left out. */
  function Counting(verdicts: seq<Verdict>, plan: Plan): seq<Phase>
    requires |verdicts| <= |plan|
  {
    if verdicts == [] then []
    else
      var i := |verdicts| - 1;
      Counting(verdicts[..i], plan) + if verdicts[i].Some? && !plan[i].optional then [verdicts[i].value] else []
  }

  function ParentPhase(verdicts: seq<Verdict>, plan: Plan): Phase
    requires |verdicts| <= |plan|
  {
    var counting := Counting(verdicts, plan);
    if FirstSevere(counting).Some? then FirstSevere(counting).value
    else if Failed in counting then Failed
    else Passed
  }

  lemma {:induction false} FirstSevereSnoc(children: seq<Phase>, p: Phase)
    ensures FirstSevere(children + [p]) ==
            if FirstSevere(children).Some? then FirstSevere(children) else if Severe(p) then Some(p) else None
  {
    if children != [] {
      ConcatTail(children, [p]);
      FirstSevereSnoc(children[1..], p);
    }
  }

  lemma CountingStep(verdicts: seq<Verdict>, plan: Plan, i: nat)
    requires i < |verdicts| <= |plan|
    ensures Counting(verdicts[..i + 1], plan) ==
            if verdicts[i].Some? && !plan[i].optional then Counting(verdicts[..i], plan) + [verdicts[i].value]
            else Counting(verdicts[..i], plan)
  {
    assert verdicts[..i + 1][..i] == verdicts[..i];
    ConcatEmpty(Counting(verdicts[..i], plan));
  }

  method ComputeParentPhase(verdicts: seq<Verdict>, plan: Plan) returns (p: Phase)
    requires |verdicts| <= |plan|
    ensures p == ParentPhase(verdicts, plan)
  {
    assert verdicts[..|verdicts|] == verdicts;
    for i := 0 to |verdicts|
      invariant FirstSevere(Counting(verdicts[..i], plan)).None?
    {
      CountingStep(verdicts, plan, i);
      if verdicts[i].None? || plan[i].optional {
        continue;
      }
      FirstSevereSnoc(Counting(verdicts[..i], plan), verdicts[i].value);
      if verdicts[i].value == Aborted || verdicts[i].value == Error {
        CountingPrefix(verdicts, plan, i + 1);
        return verdicts[i].value;
      }
    }
    CountingMeaning(verdicts, plan, Failed);
    for i := 0 to |verdicts|
      invariant forall k :: 0 <= k < i ==> verdicts[k] != Some(Failed) || plan[k].optional
    {
      if verdicts[i] == Some(Failed) && !plan[i].optional {
        return Failed;
      }
    }
    return Passed;
  }

  /** What counts of a prefix counts first, so the first severe verdict in it is the first of all. */
  lemma {:induction false} CountingPrefix(verdicts: seq<Verdict>, plan: Plan, n: nat)
    requires n <= |verdicts| <= |plan|
    ensures Counting(verdicts[..n], plan) <= Counting(verdicts, plan)
    ensures FirstSevere(Counting(verdicts[..n], plan)).Some? ==>
              FirstSevere(Counting(verdicts, plan)) == FirstSevere(Counting(verdicts[..n], plan))
    decreases |verdicts|
  {
    if n == |verdicts| {
      assert verdicts[..n] == verdicts;
    } else {
      var i := |verdicts| - 1;
      CountingPrefix(verdicts[..i], plan, n);
      assert verdicts[..i][..n] == verdicts[..n];
      if verdicts[i].Some? && !plan[i].optional {
        FirstSevereSnoc(Counting(verdicts[..i], plan), verdicts[i].value);
      } else {
        ConcatEmpty(Counting(verdicts[..i], plan));
      }
    }
  }

  lemma {:induction false} CountingMeaning(verdicts: seq<Verdict>, plan: Plan, p: Phase)
    requires |verdicts| <= |plan|
    ensures p in Counting(verdicts, plan) <==>
            exists i :: 0 <= i < |verdicts| && verdicts[i] == Some(p) && !plan[i].optional
  {
    if verdicts != [] {
      var n := |verdicts| - 1;
      CountingMeaning(verdicts[..n], plan, p);
      if p in Counting(verdicts[..n], plan) {
        var i :| 0 <= i < n && verdicts[..n][i] == Some(p) && !plan[i].optional;
        assert verdicts[i] == Some(p);
      }
      forall i | 0 <= i < |verdicts| && verdicts[i] == Some(p) && !plan[i].optional ensures p in Counting(verdicts, plan) {
        assert i < n ==> verdicts[..n][i] == Some(p);
      }
    }
  }

  /** The parent passes exactly when no step that counts ended badly. */
  lemma ParentPasses(verdicts: seq<Verdict>, plan: Plan)
    requires |verdicts| <= |plan|
    requires forall i :: 0 <= i < |verdicts| && verdicts[i].Some? ==> IsTerminal(verdicts[i].value)
    ensures ParentPhase(verdicts, plan) == Passed <==>
            forall i :: 0 <= i < |verdicts| && verdicts[i].Some? && !plan[i].optional ==> verdicts[i].value == Passed
  {
    var counting := Counting(verdicts, plan);
    FirstSevereMeaning(counting);
    forall p: Phase ensures p in counting <==> exists i :: 0 <= i < |verdicts| && verdicts[i] == Some(p) && !plan[i].optional {
      CountingMeaning(verdicts, plan, p);
    }
    if ParentPhase(verdicts, plan) == Passed {
      forall i | 0 <= i < |verdicts| && verdicts[i].Some? && !plan[i].optional ensures verdicts[i].value == Passed {
        assert verdicts[i] == Some(verdicts[i].value);
        assert verdicts[i].value in counting;
      }
    }
  }

  /** Verdicts as a run leaves them: None exactly where a step was to be skipped. */
  ghost predicate SkippedRight(verdicts: seq<Verdict>, plan: Plan) {
    && |verdicts| <= |plan|
    && forall i {:trigger verdicts[..i]} :: 0 <= i < |verdicts| ==> (verdicts[i].None? <==> ShouldSkip(verdicts[..i], plan))
  }

  /** In a parent that passed only optional steps failed, so a step is skipped for a severe verdict alone. */
  lemma SkippedForSevere(verdicts: seq<Verdict>, plan: Plan, j: nat)
    requires j < |verdicts| <= |plan|
    requires forall i :: 0 <= i < |verdicts| && verdicts[i].Some? ==> IsTerminal(verdicts[i].value)
    requires ParentPhase(verdicts, plan) == Passed
    ensures ShouldSkip(verdicts[..j], plan) <==>
            !plan[j].always && exists i :: 0 <= i < j && verdicts[i].Some? && Severe(verdicts[i].value)
  {
    ParentPasses(verdicts, plan);
    var prior := verdicts[..j];
    assert forall i {:trigger prior[i]} {:trigger verdicts[i]} :: 0 <= i < j ==> prior[i] == verdicts[i];
    if !plan[j].always && exists i :: 0 <= i < j && verdicts[i].Some? && Severe(verdicts[i].value) {
      var i :| 0 <= i < j && verdicts[i].Some? && Severe(verdicts[i].value);
      assert prior[i].Some? && Severe(prior[i].value);
    }
  }

  /**
   A parent that passed has skipped nothing exactly when every step after an aborted step, or one in
   error, runs always.
   */
  lemma PassedSkipsNothingExactly(verdicts: seq<Verdict>, plan: Plan)
    requires SkippedRight(verdicts, plan)
    requires forall i :: 0 <= i < |verdicts| && verdicts[i].Some? ==> IsTerminal(verdicts[i].value)
    requires ParentPhase(verdicts, plan) == Passed
    ensures (forall i :: 0 <= i < |verdicts| ==> verdicts[i].Some?) <==>
            (forall i, j {:trigger verdicts[i], plan[j]} ::
               0 <= i < j < |verdicts| && verdicts[i].Some? && Severe(verdicts[i].value) ==> plan[j].always)
  {
    forall j | 0 <= j < |verdicts|
      ensures verdicts[j].None? <==>
              !plan[j].always && exists i :: 0 <= i < j && verdicts[i].Some? && Severe(verdicts[i].value)
    {
      SkippedForSevere(verdicts, plan, j);
      var prior := verdicts[..j];
      assert verdicts[j].None? <==> ShouldSkip(prior, plan);
    }
  }

  /** So with no optional step aborted or in error it has skipped nothing. */
  lemma PassedSkippedNothing(verdicts: seq<Verdict>, plan: Plan)
    requires SkippedRight(verdicts, plan)
    requires forall i :: 0 <= i < |verdicts| && verdicts[i].Some? ==> IsTerminal(verdicts[i].value)
    requires forall i :: 0 <= i < |verdicts| && verdicts[i].Some? && plan[i].optional ==> !Severe(verdicts[i].value)
    requires ParentPhase(verdicts, plan) == Passed
    ensures forall i :: 0 <= i < |verdicts| ==> verdicts[i].Some?
  {
    ParentPasses(verdicts, plan);
    PassedSkipsNothingExactly(verdicts, plan);
  }

  /** With one it can: the step behind the aborted one is skipped, and the parent passes. */
  lemma AbortedOptionalStillPasses(plan: Plan)
    requires |plan| == 2 && plan[0].optional && !plan[1].always
    ensures SkippedRight([Some(Aborted), None], plan) && ParentPhase([Some(Aborted), None], plan) == Passed
  {
    var verdicts: seq<Verdict> := [Some(Aborted), None];
    assert verdicts[..0] == [] && verdicts[..1] == [Some(Aborted)];
    assert verdicts[..1][0] == Some(Aborted);
    ParentPasses(verdicts, plan);
  }

  /** The step passed, or failed and may. */
  predicate Went(v: Verdict, s: StepSpec) {
    v == Some(Passed) || (s.optional && v == Some(Failed))
  }

  /** The summary's three counts: passed or excused, failed, skipped. */
  method ParentMessage(verdicts: seq<Verdict>, plan: Plan) returns (passed: nat, failed: nat, skipped: nat)
    requires |verdicts| <= |plan|
    ensures passed + failed + skipped == |verdicts|
    ensures passed == |set i | 0 <= i < |verdicts| && (verdicts[i] == Some(Passed) || (plan[i].optional && verdicts[i] == Some(Failed)))|
    ensures skipped == |set i | 0 <= i < |verdicts| && verdicts[i] == None|
  {
    passed, failed, skipped := 0, 0, 0;
    ghost var went := seq(|verdicts|, i requires 0 <= i < |verdicts| => Went(verdicts[i], plan[i]));
    ghost var left := seq(|verdicts|, i requires 0 <= i < |verdicts| => verdicts[i] == None);
    for i := 0 to |verdicts|
      invariant passed + failed + skipped == i
      invariant passed == |SetBelow(went, i)| && skipped == |SetBelow(left, i)|
    {
      SetBelowNext(went, i);
      SetBelowNext(left, i);
      if verdicts[i].None? {
        skipped := skipped + 1;
      } else if verdicts[i].value == Passed || (plan[i].optional && verdicts[i].value == Failed) {
        passed := passed + 1;
      } else {
        failed := failed + 1;
      }
    }
    assert SetBelow(went, |verdicts|)
           == set i | 0 <= i < |verdicts| && (verdicts[i] == Some(Passed) || (plan[i].optional && verdicts[i] == Some(Failed)));
    assert SetBelow(left, |verdicts|) == set i | 0 <= i < |verdicts| && verdicts[i] == None;
  }
}
