/** The tries of a composite run's children: how they are numbered, how many there can be. */
module CompositeTries {
  import opened Bytes
  import opened Phases
  import opened Composite

  /** The try before t. */
  function Previous(t: Try): Try
    requires t.attempt > 0
  {
    Try(t.step, t.child, t.attempt - 1)
  }

  /** A try belongs to the plan, and all but the first follow one that ended badly enough. */
  ghost predicate TryOk(plan: Plan, kids: Kids, t: Try) {
    && t.step < |plan|
    && t.child in plan[t.step].expected
    && t.attempt <= plan[t.step].retries
    && (t.attempt > 0 ==> Previous(t) in kids && NeedsRetry(kids[Previous(t)], plan[t.step].negative))
  }

  ghost predicate WellTried(plan: Plan, kids: Kids) {
    forall t {:trigger TryOk(plan, kids, t)} :: t in kids ==> TryOk(plan, kids, t)
  }

  /** Children go on and may be joined by others; the ended ones stay as they ended. */
  ghost predicate Grows(a: Kids, b: Kids) {
    forall t {:trigger t in a} :: t in a ==> t in b && (IsTerminal(a[t]) ==> b[t] == a[t])
  }

  /** Tries are numbered without a gap, and each but the newest ended in an outcome worth retrying. */
  lemma {:induction false} NoGap(plan: Plan, kids: Kids, t: Try, n: nat)
    requires WellTried(plan, kids) && t in kids && n < t.attempt
    ensures t.step < |plan| && Try(t.step, t.child, n) in kids
    ensures NeedsRetry(kids[Try(t.step, t.child, n)], plan[t.step].negative)
    decreases t.attempt
  {
    assert TryOk(plan, kids, t);
    if n < t.attempt - 1 {
      NoGap(plan, kids, Previous(t), n);
    }
  }

  /** An aborted try is the last one of its child. */
  lemma AbortedIsLast(plan: Plan, kids: Kids, t: Try, u: Try)
    requires WellTried(plan, kids) && t in kids && u in kids
    requires t.step == u.step && t.child == u.child && kids[t] == Aborted
    ensures u.attempt <= t.attempt
  {
    if u.attempt > t.attempt {
      NoGap(plan, kids, u, t.attempt);
    }
  }

  /** A child that needs no further try never gets one, so its outcome stands. */
  lemma OutcomeStands(plan: Plan, a: Kids, b: Kids, i: nat, e: Child)
    requires i < |plan| && WellTried(plan, b) && Grows(a, b)
    requires var s := plan[i];
             var n := Latest(a, i, e, s.retries);
             n.Some? && IsTerminal(a[Try(i, e, n.value)])
             && !(n.value < s.retries && NeedsRetry(a[Try(i, e, n.value)], s.negative))
    ensures Latest(b, i, e, plan[i].retries) == Latest(a, i, e, plan[i].retries)
    ensures b[Try(i, e, Latest(a, i, e, plan[i].retries).value)] == a[Try(i, e, Latest(a, i, e, plan[i].retries).value)]
  {
    var n := Latest(a, i, e, plan[i].retries).value;
    var m := Latest(b, i, e, plan[i].retries);
    if m.Some? && m.value > n {
      NoGap(plan, b, Try(i, e, m.value), n);
    }
  }

  /** A settled step stays settled, with the same outcomes. */
  lemma {:induction false} SettledStays(plan: Plan, a: Kids, b: Kids, i: nat, k: nat)
    requires i < |plan| && k <= |plan[i].expected| && WellTried(plan, b) && Grows(a, b)
    requires Gather(a, i, plan[i], k).done
    ensures Gather(b, i, plan[i], k) == Gather(a, i, plan[i], k)
  {
    if k > 0 {
      SettledStays(plan, a, b, i, k - 1);
      OutcomeStands(plan, a, b, i, plan[i].expected[k - 1]);
    }
  }

  // ----- Creating tries ---------------------------------------------------------------

  lemma CreateKeeps(plan: Plan, kids: Kids, t: Try)
    requires WellTried(plan, kids) && TryOk(plan, kids, t)
    ensures WellTried(plan, Create(kids, t)) && Grows(kids, Create(kids, t))
  {
    forall u | u in Create(kids, t) ensures TryOk(plan, Create(kids, t), u) {
      assert TryOk(plan, kids, u);
    }
  }

  lemma {:induction false} ToCreateExpected(kids: Kids, i: nat, s: StepSpec, k: nat, inFlight: nat)
    requires k <= |s.expected|
    ensures forall e {:trigger e in s.expected} :: e in ToCreate(kids, i, s, k, inFlight) ==> e in s.expected
    ensures inFlight <= Cap(s) ==> inFlight + |ToCreate(kids, i, s, k, inFlight)| <= Cap(s)
    ensures inFlight > Cap(s) ==> ToCreate(kids, i, s, k, inFlight) == []
    decreases |s.expected| - k
  {
    if k < |s.expected| && inFlight < Cap(s) {
      if Latest(kids, i, s.expected[k], s.retries).Some? {
        ToCreateExpected(kids, i, s, k + 1, inFlight);
      } else {
        ToCreateExpected(kids, i, s, k + 1, inFlight + 1);
      }
    }
  }

  lemma {:induction false} CreateFirstKeeps(plan: Plan, kids: Kids, i: nat, children: seq<Child>)
    requires WellTried(plan, kids) && i < |plan|
    requires forall e {:trigger e in plan[i].expected} :: e in children ==> e in plan[i].expected
    ensures WellTried(plan, CreateFirst(kids, i, children)) && Grows(kids, CreateFirst(kids, i, children))
    ensures forall t {:trigger t in CreateFirst(kids, i, children)} :: t in CreateFirst(kids, i, children) ==> t in kids || t.step == i
    decreases |children|
  {
    if children != [] {
      var t := Try(i, children[0], 0);
      assert t.child in children;
      CreateKeeps(plan, kids, t);
      CreateFirstKeeps(plan, Create(kids, t), i, children[1..]);
    }
  }

  /** The try is one of the first tries of these children. */
  predicate IsFirstOf(t: Try, i: nat, children: seq<Child>) {
    t.step == i && t.attempt == 0 && t.child in children
  }

  /** Making first tries adds exactly those that are not there, and nothing has come of them yet. */
  lemma {:induction false} CreateFirstAt(kids: Kids, i: nat, children: seq<Child>, t: Try)
    ensures t in CreateFirst(kids, i, children) <==> t in kids || IsFirstOf(t, i, children)
    ensures t in CreateFirst(kids, i, children) ==> CreateFirst(kids, i, children)[t] == if t in kids then kids[t] else Unset
    decreases |children|
  {
    if children != [] {
      CreateFirstAt(Create(kids, Try(i, children[0], 0)), i, children[1..], t);
      assert children == [children[0]] + children[1..];
      assert IsFirstOf(t, i, [children[0]]) ==> t == Try(i, children[0], 0);
    }
  }

  lemma CreateFirstIs(kids: Kids, i: nat, children: seq<Child>)
    ensures forall t: Try {:trigger t in CreateFirst(kids, i, children)} ::
              t in CreateFirst(kids, i, children) <==> t in kids || IsFirstOf(t, i, children)
    ensures forall t: Try {:trigger t in CreateFirst(kids, i, children)} {:trigger t in kids} ::
              t in kids ==> t in CreateFirst(kids, i, children) && CreateFirst(kids, i, children)[t] == kids[t]
  {
    forall t: Try
      ensures t in CreateFirst(kids, i, children) <==> t in kids || IsFirstOf(t, i, children)
      ensures t in kids ==> t in CreateFirst(kids, i, children) && CreateFirst(kids, i, children)[t] == kids[t]
    {
      CreateFirstAt(kids, i, children, t);
    }
  }

  /** A retry that follows a try of its child which ended badly enough. */
  ghost predicate RetryOk(plan: Plan, kids: Kids, i: nat, t: Try)
    requires i < |plan|
  {
    && t.step == i && 0 < t.attempt <= plan[i].retries && t.child in plan[i].expected
    && Previous(t) in kids && NeedsRetry(kids[Previous(t)], plan[i].negative)
  }

  /** Every retry a gathering asks for follows a try that ended badly enough. */
  lemma {:induction false} AgainIsOk(plan: Plan, view: Kids, i: nat, k: nat)
    requires i < |plan| && k <= |plan[i].expected|
    ensures forall t {:trigger t in Gather(view, i, plan[i], k).again} :: t in Gather(view, i, plan[i], k).again ==>
              RetryOk(plan, view, i, t)
  {
    if k > 0 {
      AgainIsOk(plan, view, i, k - 1);
    }
  }

  lemma {:induction false} CreateAgainKeeps(plan: Plan, kids: Kids, i: nat, again: seq<Try>)
    requires WellTried(plan, kids) && i < |plan|
    requires forall t {:trigger t in again} :: t in again ==> RetryOk(plan, kids, i, t)
    ensures WellTried(plan, CreateAgain(kids, again)) && Grows(kids, CreateAgain(kids, again))
    ensures forall t {:trigger t in CreateAgain(kids, again)} :: t in CreateAgain(kids, again) ==> t in kids || t.step == i
    decreases |again|
  {
    if again != [] {
      assert again[0] in again;
      assert RetryOk(plan, kids, i, again[0]);
      CreateKeeps(plan, kids, again[0]);
      forall t | t in again[1..] ensures RetryOk(plan, Create(kids, again[0]), i, t) {
        assert t in again;
        assert RetryOk(plan, kids, i, t);
      }
      CreateAgainKeeps(plan, Create(kids, again[0]), i, again[1..]);
    }
  }

  // ----- How many ---------------------------------------------------------------------

  /** The tries a step can have. */
  function TriesOf(plan: Plan, i: nat): set<Try>
    requires i < |plan|
  {
    set k, n | 0 <= k < |plan[i].expected| && 0 <= n <= plan[i].retries :: Try(i, plan[i].expected[k], n)
  }

  function MaxTriesOf(s: StepSpec): nat {
    |s.expected| * (s.retries + 1)
  }

  function MaxTries(plan: Plan, n: nat): nat
    requires n <= |plan|
  {
    if n == 0 then 0 else MaxTries(plan, n - 1) + MaxTriesOf(plan[n - 1])
  }

  /** The tries of the first n steps. */
  function TriesBelow(plan: Plan, n: nat): set<Try>
    requires n <= |plan|
  {
    if n == 0 then {} else TriesBelow(plan, n - 1) + TriesOf(plan, n - 1)
  }

  /** The tries of one child. */
  function TriesOfChild(i: nat, e: Child, retries: nat): (r: set<Try>)
    ensures forall n {:trigger Try(i, e, n)} :: 0 <= n <= retries ==> Try(i, e, n) in r
    ensures |r| <= retries + 1
  {
    if retries == 0 then {Try(i, e, 0)} else TriesOfChild(i, e, retries - 1) + {Try(i, e, retries)}
  }

  /** The tries of the first k children. */
  function TriesOfChildren(i: nat, s: StepSpec, k: nat): (r: set<Try>)
    requires k <= |s.expected|
    ensures |r| <= k * (s.retries + 1)
  {
    if k == 0 then {} else TriesOfChildren(i, s, k - 1) + TriesOfChild(i, s.expected[k - 1], s.retries)
  }

  lemma {:induction false} ChildHasTries(i: nat, s: StepSpec, k: nat, j: nat, n: nat)
    requires j < k <= |s.expected| && n <= s.retries
    ensures Try(i, s.expected[j], n) in TriesOfChildren(i, s, k)
  {
    if j < k - 1 {
      ChildHasTries(i, s, k - 1, j, n);
    }
  }

  lemma StepTries(plan: Plan, i: nat)
    requires i < |plan|
    ensures |TriesOf(plan, i)| <= MaxTriesOf(plan[i])
  {
    var s := plan[i];
    var all := TriesOfChildren(i, s, |s.expected|);
    forall t | t in TriesOf(plan, i) ensures t in all {
      var k, n :| 0 <= k < |s.expected| && 0 <= n <= s.retries && t == Try(i, s.expected[k], n);
      ChildHasTries(i, s, |s.expected|, k, n);
    }
    SubsetSize(TriesOf(plan, i), all);
  }

  lemma {:induction false} SubsetSize<T>(a: set<T>, b: set<T>)
    requires a <= b
    ensures |a| <= |b|
    decreases a
  {
    if a != {} {
      var x :| x in a;
      SubsetSize(a - {x}, b - {x});
    }
  }

  lemma UnionSize<T>(a: set<T>, b: set<T>)
    ensures |a + b| <= |a| + |b|
  {
    assert a + b == a + (b - a);
    SubsetSize(b - a, b);
  }

  lemma {:induction false} TriesBelowSize(plan: Plan, n: nat)
    requires n <= |plan|
    ensures |TriesBelow(plan, n)| <= MaxTries(plan, n)
  {
    if n > 0 {
      TriesBelowSize(plan, n - 1);
      StepTries(plan, n - 1);
      UnionSize(TriesBelow(plan, n - 1), TriesOf(plan, n - 1));
    }
  }

  lemma {:induction false} TriesBelowHasStep(plan: Plan, n: nat, i: nat)
    requires i < n <= |plan|
    ensures TriesOf(plan, i) <= TriesBelow(plan, n)
  {
    if i < n - 1 {
      TriesBelowHasStep(plan, n - 1, i);
    }
  }

  /** A run never has more children than its steps' counts times their tries. */
  lemma TriesAreBounded(plan: Plan, kids: Kids)
    requires WellTried(plan, kids)
    ensures |kids| <= MaxTries(plan, |plan|)
  {
    forall t | t in kids.Keys ensures t in TriesBelow(plan, |plan|) {
      assert TryOk(plan, kids, t);
      var k :| 0 <= k < |plan[t.step].expected| && plan[t.step].expected[k] == t.child;
      assert t == Try(t.step, plan[t.step].expected[k], t.attempt);
      TriesBelowHasStep(plan, |plan|, t.step);
    }
    SubsetSize(kids.Keys, TriesBelow(plan, |plan|));
    TriesBelowSize(plan, |plan|);
    assert |kids| == |kids.Keys|;
  }
}
