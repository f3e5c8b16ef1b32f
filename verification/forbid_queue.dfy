/** Concurrency policies: the queue of runs that wait for one another under Forbid. */
module ForbidQueue {
  import opened Bytes
  import opened Phases
  import opened Order

  /** A run of some Test; started once it holds a resolved spec. */
  datatype Run = Run(uid: string, name: string, created: int, notBefore: Option<int>, started: bool, phase: Phase)

  datatype Policy = Allow | Forbid | Replace

  datatype Action = Proceed | Wait | ReplacePrior

  /** A run's place in the queue: by creation time, then by name. */
  datatype Place = Place(created: int, name: string)

  function ComparePlaces(a: Place, b: Place): int {
    if a.created != b.created then a.created - b.created else Compare(a.name, b.name)
  }

  predicate Before(a: Place, b: Place) {
    ComparePlaces(a, b) < 0
  }

  function PlaceOf(r: Run): Place {
    Place(r.created, r.name)
  }

  predicate QueuedBefore(a: Run, b: Run) {
    Before(PlaceOf(a), PlaceOf(b))
  }

  /** A strict total order of places; runs of one namespace have different names, so different places. */
  lemma BeforeTotal(a: Place, b: Place)
    ensures !Before(a, a)
    ensures !(Before(a, b) && Before(b, a))
    ensures a != b ==> Before(a, b) || Before(b, a)
  {
    CompareMirrors(a.name, b.name);
    CompareMirrors(a.name, a.name);
  }

  lemma BeforeTransitive(a: Place, b: Place, c: Place)
    requires Before(a, b) && Before(b, c)
    ensures Before(a, c)
  {
    if a.created == b.created == c.created {
      LessTransitive(a.name, b.name, c.name);
    }
  }

  predicate WaitingForSchedule(r: Run, now: int) {
    !r.started && r.notBefore.Some? && now < r.notBefore.value
  }

  /** self is None when the question is asked for no run in particular. */
  predicate ForbidBlocks(p: Run, self: Option<Run>) {
    if IsTerminal(p.phase) || (self.Some? && p.uid == self.value.uid) then false
    else p.started || self.None? || QueuedBefore(p, self.value)
  }

  /** Neither ended nor the run in question. */
  predicate IsActivePrior(p: Run, self: Option<Run>) {
    !IsTerminal(p.phase) && !(self.Some? && p.uid == self.value.uid)
  }

  function Decide(priors: set<Run>, self: Option<Run>, policy: Policy): Action {
    if policy == Forbid then
      if exists p :: p in priors && ForbidBlocks(p, self) then Wait else Proceed
    else if policy == Replace && exists p :: p in priors && IsActivePrior(p, self) then ReplacePrior
    else Proceed
  }

  /** p is another run than self, and has not ended. */
  predicate IsUnfinishedOther(p: Run, self: Option<Run>) {
    p.phase !in {Passed, Failed, Error, Aborted} && (self.Some? ==> p.uid != self.value.uid)
  }

  /** a was created in an earlier second than b, or in the same with an earlier name. */
  ghost predicate IsOlder(a: Run, b: Run) {
    a.created < b.created || (a.created == b.created && Precedes(a.name, b.name))
  }

  lemma QueuedBeforeIsOlder(a: Run, b: Run)
    ensures QueuedBefore(a, b) <==> IsOlder(a, b)
  {
    LessIsPrecedes(a.name, b.name);
  }

  /** Under Forbid a run waits for what is started or older; under Replace it replaces whatever is unfinished. */
  lemma DecideMeaning(priors: set<Run>, self: Option<Run>, policy: Policy)
    ensures Decide(priors, self, policy) == Wait <==>
            policy == Forbid
            && exists p :: p in priors && IsUnfinishedOther(p, self) && (p.started || self == None || IsOlder(p, self.value))
    ensures Decide(priors, self, policy) == ReplacePrior <==> policy == Replace && exists p :: p in priors && IsUnfinishedOther(p, self)
  {
    forall p | p in priors
      ensures ForbidBlocks(p, self) <==> IsUnfinishedOther(p, self) && (p.started || self == None || IsOlder(p, self.value))
      ensures IsActivePrior(p, self) <==> IsUnfinishedOther(p, self)
    {
      if self.Some? {
        QueuedBeforeIsOlder(p, self.value);
      }
    }
  }

  method DecideConcurrency(priors: seq<Run>, self: Option<Run>, policy: Policy) returns (action: Action)
    ensures action == Decide((set p | p in priors), self, policy)
    ensures action == Wait <==>
            policy == Forbid
            && exists p :: p in priors && IsUnfinishedOther(p, self) && (p.started || self == None || IsOlder(p, self.value))
    ensures action == ReplacePrior <==> policy == Replace && exists p :: p in priors && IsUnfinishedOther(p, self)
  {
    DecideMeaning((set p | p in priors), self, policy);
    if policy == Forbid {
      for i := 0 to |priors|
        invariant forall k :: 0 <= k < i ==> !ForbidBlocks(priors[k], self)
      {
        if ForbidBlocks(priors[i], self) {
          assert priors[i] in priors;
          return Wait;
        }
      }
      return Proceed;
    }
    var active := ActivePriorCount(priors, self);
    if active == 0 {
      return Proceed;
    }
    return if policy == Replace then ReplacePrior else Proceed;
  }

  method ActivePriorCount(priors: seq<Run>, self: Option<Run>) returns (n: nat)
    ensures n == |set i | 0 <= i < |priors| && IsUnfinishedOther(priors[i], self)|
    ensures n == 0 <==> forall p :: p in priors ==> !IsActivePrior(p, self)
  {
    n := 0;
    ghost var counted := seq(|priors|, i requires 0 <= i < |priors| => IsUnfinishedOther(priors[i], self));
    for i := 0 to |priors|
      invariant n == |SetBelow(counted, i)|
    {
      SetBelowNext(counted, i);
      if self.Some? && priors[i].uid == self.value.uid {
        continue;
      }
      if !IsTerminal(priors[i].phase) {
        n := n + 1;
      }
    }
    assert SetBelow(counted, |priors|) == set i | 0 <= i < |priors| && IsUnfinishedOther(priors[i], self);
    NoneSet(counted);
    forall i | 0 <= i < |priors| ensures counted[i] == IsActivePrior(priors[i], self) && priors[i] in priors {
    }
    assert forall p :: p in priors ==> exists i :: 0 <= i < |priors| && priors[i] == p;
  }

  lemma NoneSet(flags: seq<bool>)
    ensures |SetBelow(flags, |flags|)| == 0 <==> forall i :: 0 <= i < |flags| ==> !flags[i]
  {
    if i :| 0 <= i < |flags| && flags[i] {
      assert i in SetBelow(flags, |flags|);
    } else {
      assert SetBelow(flags, |flags|) == {};
    }
  }

  /** Under Replace these are aborted first. */
  method SelectPriorsToAbort(priors: seq<Run>, self: Option<Run>) returns (out: seq<Run>)
    ensures forall p :: p in out <==> p in priors && IsUnfinishedOther(p, self)
  {
    out := [];
    for i := 0 to |priors|
      invariant forall p {:trigger p in out} :: p in out <==> p in priors[..i] && IsUnfinishedOther(p, self)
    {
      assert priors[..i + 1] == priors[..i] + [priors[i]];
      if self.Some? && priors[i].uid == self.value.uid {
        continue;
      }
      if !IsTerminal(priors[i].phase) {
        out := out + [priors[i]];
      }
    }
    assert priors[..|priors|] == priors;
  }

  // ----- Setting runs up --------------------------------------------------------------

  /** A run that was found free to go, with the listing that was decided on. */
  datatype Ready = Ready(uid: string, view: map<string, Run>)

  /** The runs of one Test whose policy is Forbid, the time, and the run about to start. */
  datatype World = World(runs: map<string, Run>, now: int, ready: Option<Ready>)

  datatype Event =
    | Create(r: Run)
    | Tick(now: int)
    | Decided(uid: string, view: map<string, Run>)
    | Start
    | GiveUp
    | Ends(uid: string, phase: Phase)

  /** The listed runs, without those scheduled for later. */
  function Priors(view: map<string, Run>, now: int): set<Run> {
    set u | u in view && !WaitingForSchedule(view[u], now) :: view[u]
  }

  predicate IsActive(r: Run) {
    r.started && !IsTerminal(r.phase)
  }

  predicate IsDue(r: Run, now: int) {
    !r.started && !IsTerminal(r.phase) && !WaitingForSchedule(r, now)
  }

  predicate Goes(view: map<string, Run>, now: int, self: Run) {
    Decide(Priors(view, now), Some(self), Forbid) == Proceed
  }

  /** A run as it was some time ago: it may have been started or have ended since. */
  predicate IsOldCopy(seen: Run, r: Run) {
    && seen.uid == r.uid && seen.name == r.name && seen.created == r.created && seen.notBefore == r.notBefore
    && (seen.started ==> r.started)
    && (IsTerminal(seen.phase) ==> IsTerminal(r.phase))
  }

  /** The cached listing lags: it may lack runs, and shows old copies of the others. */
  ghost predicate IsListing(view: map<string, Run>, runs: map<string, Run>) {
    forall u {:trigger view[u]} :: u in view ==> u in runs && IsOldCopy(view[u], runs[u])
  }

  /** Runs are set up one at a time; a status write fails unless it is based on the run as it is. */
  ghost predicate Enabled(w: World, e: Event) {
    match e
    case Create(r) =>
      && r.uid !in w.runs && !r.started && !IsTerminal(r.phase)
      && forall u {:trigger w.runs[u]} :: u in w.runs ==> w.runs[u].name != r.name
    case Tick(now) => w.now <= now
    case Decided(uid, view) =>
      && w.ready.None? && uid in w.runs && IsDue(w.runs[uid], w.now)
      && IsListing(view, w.runs) && Goes(view, w.now, w.runs[uid])
    case Start => w.ready.Some? && w.ready.value.uid in w.runs && IsDue(w.runs[w.ready.value.uid], w.now)
    case GiveUp => w.ready.Some?
    case Ends(uid, phase) => uid in w.runs && IsTerminal(phase)
  }

  function Started(r: Run): Run {
    r.(started := true, phase := Queued)
  }

  ghost function After(w: World, e: Event): World
    requires Enabled(w, e)
  {
    match e
    case Create(r) => w.(runs := w.runs[r.uid := r])
    case Tick(now) => w.(now := now)
    case Decided(uid, view) => w.(ready := Some(Ready(uid, view)))
    case Start => w.(runs := w.runs[w.ready.value.uid := Started(w.runs[w.ready.value.uid])], ready := None)
    case GiveUp => w.(ready := None)
    case Ends(uid, phase) => w.(runs := w.runs[uid := w.runs[uid].(phase := phase)])
  }

  function Empty(now: int): World {
    World(map[], now, None)
  }

  ghost predicate Execution(w: World, events: seq<Event>)
    decreases |events|
  {
    events == [] || (Enabled(w, events[0]) && Execution(After(w, events[0]), events[1..]))
  }

  // ----- What lets a run go -----------------------------------------------------------

  ghost predicate Keyed(view: map<string, Run>) {
    forall u {:trigger view[u]} :: u in view ==> view[u].uid == u
  }

  /** A run goes exactly when no other run listed is started and unfinished, or due and queued before it. */
  lemma GoesWhen(view: map<string, Run>, now: int, self: Run)
    requires Keyed(view)
    ensures Goes(view, now, self) <==>
            forall u {:trigger view[u]} :: u in view && u != self.uid ==>
              !IsActive(view[u]) && !(IsDue(view[u], now) && QueuedBefore(view[u], self))
  {
    if Goes(view, now, self) {
      forall u | u in view && u != self.uid
        ensures !IsActive(view[u]) && !(IsDue(view[u], now) && QueuedBefore(view[u], self))
      {
        assert !WaitingForSchedule(view[u], now) ==> view[u] in Priors(view, now);
      }
    }
  }

  /**
   The same of the listing alone: every other run on it has ended, or it waits, and is scheduled for
   later or not older.
   */
  lemma GoesExactly(view: map<string, Run>, now: int, self: Run)
    requires Keyed(view)
    ensures Goes(view, now, self) <==>
            forall u {:trigger view[u]} :: u in view && u != self.uid ==>
              || view[u].phase in {Passed, Failed, Error, Aborted}
              || (!view[u].started && ((view[u].notBefore.Some? && now < view[u].notBefore.value) || !IsOlder(view[u], self)))
  {
    GoesWhen(view, now, self);
    forall u | u in view ensures QueuedBefore(view[u], self) <==> IsOlder(view[u], self) {
      QueuedBeforeIsOlder(view[u], self);
    }
  }

  // ----- Exclusion --------------------------------------------------------------------

  /** The listing shows that the run has started. */
  predicate ShowsStart(view: map<string, Run>, uid: string) {
    uid in view && view[uid].started
  }

  ghost predicate ShowsActive(view: map<string, Run>, runs: map<string, Run>) {
    forall u {:trigger runs[u]} :: u in runs && IsActive(runs[u]) ==> ShowsStart(view, u)
  }

  ghost predicate OneActive(runs: map<string, Run>) {
    forall u, v {:trigger runs[u], runs[v]} :: u in runs && v in runs && IsActive(runs[u]) && IsActive(runs[v]) ==> u == v
  }

  /** What is active while a run is about to start did not show in the listing it was decided on. */
  ghost predicate Inv(w: World) {
    && Keyed(w.runs)
    && (forall u, v {:trigger w.runs[u], w.runs[v]} :: u in w.runs && v in w.runs && w.runs[u].name == w.runs[v].name ==> u == v)
    && (w.ready.Some? ==>
          forall u {:trigger w.runs[u]} :: u in w.runs && IsActive(w.runs[u]) ==> !ShowsStart(w.ready.value.view, u))
  }

  lemma StepKeeps(w: World, e: Event)
    requires Inv(w) && Enabled(w, e)
    ensures Inv(After(w, e))
  {
    if e.Decided? {
      var view := e.view;
      forall u | u in view ensures view[u].uid == u {
        assert IsOldCopy(view[u], w.runs[u]);
      }
      GoesWhen(view, w.now, w.runs[e.uid]);
      forall u | u in w.runs && IsActive(w.runs[u]) ensures !ShowsStart(view, u) {
        assert u in view ==> IsOldCopy(view[u], w.runs[u]) && !IsActive(view[u]);
      }
    }
  }

  /** At no moment are two runs started and unfinished. */
  ghost predicate Exclusive(w: World, events: seq<Event>)
    requires Execution(w, events)
    decreases |events|
  {
    OneActive(w.runs) && (events != [] ==> Exclusive(After(w, events[0]), events[1..]))
  }

  /** Whenever a run starts, the listing it was decided on showed the start of every run that is still unfinished. */
  ghost predicate StartsSeen(w: World, events: seq<Event>)
    requires Execution(w, events)
    decreases |events|
  {
    events != [] ==>
      && (events[0].Start? ==> ShowsActive(w.ready.value.view, w.runs))
      && StartsSeen(After(w, events[0]), events[1..])
  }

  /** A start leaves one run active exactly when its listing showed all that is active, as then nothing is. */
  lemma StartAlone(w: World)
    requires Inv(w) && OneActive(w.runs) && Enabled(w, Start)
    ensures OneActive(After(w, Start).runs) <==> ShowsActive(w.ready.value.view, w.runs)
  {
    var uid := w.ready.value.uid;
    var runs := After(w, Start).runs;
    assert IsActive(runs[uid]) && !IsActive(w.runs[uid]);
    forall u | u in w.runs ensures IsActive(w.runs[u]) ==> u != uid && IsActive(runs[u]) {
      assert u != uid ==> runs[u] == w.runs[u];
    }
  }

  lemma {:induction false} ExclusiveFrom(w: World, events: seq<Event>)
    requires Inv(w) && OneActive(w.runs) && Execution(w, events)
    ensures Exclusive(w, events) <==> StartsSeen(w, events)
    decreases |events|
  {
    if events != [] {
      StepKeeps(w, events[0]);
      if events[0].Start? {
        StartAlone(w);
      }
      if OneActive(After(w, events[0]).runs) {
        ExclusiveFrom(After(w, events[0]), events[1..]);
      }
    }
  }

  /**
   However runs are created, scheduled, started and ended, two are never active at once exactly when every
   start was decided on a listing that showed the starts of all that were unfinished.
   */
  lemma ExclusiveExactly(now: int, events: seq<Event>)
    requires Execution(Empty(now), events)
    ensures Exclusive(Empty(now), events) <==> StartsSeen(Empty(now), events)
  {
    ExclusiveFrom(Empty(now), events);
  }

  /** Every decision is made on a listing that shows every start, whatever else it lacks. */
  ghost predicate ListingsShowStarts(w: World, events: seq<Event>)
    requires Execution(w, events)
    decreases |events|
  {
    events != [] ==>
      && (events[0].Decided? ==> ShowsActive(events[0].view, w.runs))
      && ListingsShowStarts(After(w, events[0]), events[1..])
  }

  lemma {:induction false} ShownStartsAreSeen(w: World, events: seq<Event>)
    requires Inv(w) && Execution(w, events) && ListingsShowStarts(w, events)
    requires w.ready.Some? ==> ShowsActive(w.ready.value.view, w.runs)
    ensures StartsSeen(w, events)
    decreases |events|
  {
    if events != [] {
      StepKeeps(w, events[0]);
      ShownStartsAreSeen(After(w, events[0]), events[1..]);
    }
  }

  /** So where listings show every start, at most one run is started and unfinished at any time. */
  lemma AtMostOneActive(now: int, events: seq<Event>)
    requires Execution(Empty(now), events) && ListingsShowStarts(Empty(now), events)
    ensures Exclusive(Empty(now), events)
  {
    ShownStartsAreSeen(Empty(now), events);
    ExclusiveExactly(now, events);
  }

  // ----- A start that the listing does not show ---------------------------------------

  const OLDER := Run("a", "a", 0, Some(5), false, Unset)
  const YOUNGER := Run("b", "b", 1, None, false, Unset)

  /** The younger goes while the older is scheduled; the older is due before the listing shows that start. */
  ghost function Unshown(): seq<Event> {
    var runs := map["a" := OLDER, "b" := YOUNGER];
    [Create(OLDER), Create(YOUNGER), Decided("b", runs), Start, Tick(5), Decided("a", runs), Start]
  }

  ghost function UnshownWorlds(): seq<World> {
    var both := map["a" := OLDER, "b" := YOUNGER];
    var one := both["b" := Started(YOUNGER)];
    [Empty(1), World(map["a" := OLDER], 1, None), World(both, 1, None), World(both, 1, Some(Ready("b", both))),
     World(one, 1, None), World(one, 5, None), World(one, 5, Some(Ready("a", both))),
     World(one["a" := Started(OLDER)], 5, None)]
  }

  lemma {:induction false} FollowsWorlds(worlds: seq<World>, events: seq<Event>)
    requires |worlds| == |events| + 1
    requires forall k {:trigger events[k]} :: 0 <= k < |events| ==> Enabled(worlds[k], events[k]) && After(worlds[k], events[k]) == worlds[k + 1]
    ensures Execution(worlds[0], events)
    ensures Exclusive(worlds[0], events) ==> OneActive(worlds[|events|].runs)
    decreases |events|
  {
    if events != [] {
      var e := events[0];
      assert Enabled(worlds[0], e) && After(worlds[0], e) == worlds[1];
      forall k | 0 <= k < |events[1..]|
        ensures Enabled(worlds[1..][k], events[1..][k]) && After(worlds[1..][k], events[1..][k]) == worlds[1..][k + 1]
      {
        assert events[1..][k] == events[k + 1];
      }
      FollowsWorlds(worlds[1..], events[1..]);
    }
  }

  lemma BothSeeTheOther()
    ensures var runs := map["a" := OLDER, "b" := YOUNGER];
            && Goes(runs, 1, YOUNGER) && Goes(runs, 5, OLDER)
  {
    var runs := map["a" := OLDER, "b" := YOUNGER];
    GoesWhen(runs, 1, YOUNGER);
    GoesWhen(runs, 5, OLDER);
    BeforeTotal(PlaceOf(OLDER), PlaceOf(YOUNGER));
  }

  lemma UnshownBegins(k: nat)
    requires k < 4
    ensures var worlds, events := UnshownWorlds(), Unshown();
            Enabled(worlds[k], events[k]) && After(worlds[k], events[k]) == worlds[k + 1]
  {
    BothSeeTheOther();
  }

  lemma UnshownGoesOn(k: nat)
    requires 4 <= k < 7
    ensures var worlds, events := UnshownWorlds(), Unshown();
            Enabled(worlds[k], events[k]) && After(worlds[k], events[k]) == worlds[k + 1]
  {
    BothSeeTheOther();
  }

  /**
   A run that was just started still shows as waiting in the cached listing when an older one becomes due:
   both go, and both are active, though runs are set up one at a time.
   */
  lemma UnshownStartMakesTwo()
    ensures Execution(Empty(1), Unshown()) && !Exclusive(Empty(1), Unshown())
  {
    var worlds, events := UnshownWorlds(), Unshown();
    forall k {:trigger events[k]} | 0 <= k < |events|
      ensures Enabled(worlds[k], events[k]) && After(worlds[k], events[k]) == worlds[k + 1]
    {
      if k < 4 {
        UnshownBegins(k);
      } else {
        UnshownGoesOn(k);
      }
    }
    var last := worlds[7].runs;
    assert IsActive(last["a"]) && IsActive(last["b"]) && "a" != "b";
    FollowsWorlds(worlds, events);
  }

  // ----- Which runs can be set up side by side ----------------------------------------

  /** Runs as they get created, one after the other. */
  ghost predicate AreCreations(rs: seq<Run>) {
    && (forall i {:trigger rs[i]} :: 0 <= i < |rs| ==> !rs[i].started && !IsTerminal(rs[i].phase))
    && (forall i, j {:trigger rs[i], rs[j]} :: 0 <= i < j < |rs| ==> rs[i].uid != rs[j].uid && rs[i].name != rs[j].name)
  }

  /** The next run to be created is rs[n], and a listing shows at least the runs created before the one decided on. */
  ghost predicate Fits(rs: seq<Run>, n: nat, e: Event) {
    match e
    case Create(r) => n < |rs| && r == rs[n]
    case Decided(uid, view) => forall i, j {:trigger rs[i], rs[j]} :: 0 <= i < j < |rs| && rs[j].uid == uid ==> rs[i].uid in view
    case _ => true
  }

  function Created(n: nat, e: Event): nat {
    if e.Create? then n + 1 else n
  }

  ghost predicate Follows(rs: seq<Run>, n: nat, w: World, events: seq<Event>)
    decreases |events|
  {
    events == []
    || (Enabled(w, events[0]) && Fits(rs, n, events[0]) && Follows(rs, Created(n, events[0]), After(w, events[0]), events[1..]))
  }

  /** Every listing is the runs as they were at some earlier moment, or as they are. */
  ghost predicate FromPast(past: set<map<string, Run>>, w: World, events: seq<Event>)
    requires Execution(w, events)
    decreases |events|
  {
    events != [] ==>
      && (events[0].Decided? ==> events[0].view in past + {w.runs})
      && FromPast(past + {w.runs}, After(w, events[0]), events[1..])
  }

  /** There is a time from now on when x is still scheduled for later and y is not. */
  predicate CanBePassed(x: Run, y: Run, now: int) {
    x.notBefore.Some? && now < x.notBefore.value && (y.notBefore.Some? ==> y.notBefore.value < x.notBefore.value)
  }

  /** Who is queued before another is created before it, and is not scheduled for later than the other. */
  ghost predicate KeepsTurn(rs: seq<Run>, now: int) {
    forall i, j {:trigger QueuedBefore(rs[i], rs[j])} ::
      0 <= i < |rs| && 0 <= j < |rs| && QueuedBefore(rs[i], rs[j]) ==> i < j && !CanBePassed(rs[i], rs[j], now)
  }

  /** The run is there, perhaps started or ended by now. */
  predicate IsThere(w: World, r: Run) {
    r.uid in w.runs && IsOldCopy(r, w.runs[r.uid])
  }

  ghost predicate IsOneOf(rs: seq<Run>, n: nat, uid: string)
    requires n <= |rs|
  {
    exists i :: 0 <= i < n && rs[i].uid == uid
  }

  /** The first n runs are there, and no others. */
  ghost predicate Has(rs: seq<Run>, n: nat, w: World) {
    && n <= |rs|
    && (forall u {:trigger IsOneOf(rs, n, u)} :: u in w.runs ==> IsOneOf(rs, n, u))
    && (forall i {:trigger IsThere(w, rs[i])} :: 0 <= i < n ==> IsThere(w, rs[i]))
  }

  /** The run has started and not ended, or is about to start. */
  predicate HasGone(w: World, uid: string) {
    (uid in w.runs && IsActive(w.runs[uid])) || (w.ready.Some? && w.ready.value.uid == uid)
  }

  predicate HasEnded(w: World, uid: string) {
    uid in w.runs && IsTerminal(w.runs[uid].phase)
  }

  /** All runs queued before one that has gone have ended. */
  ghost predicate InTurn(rs: seq<Run>, n: nat, w: World) {
    && Has(rs, n, w)
    && (w.ready.Some? ==> w.ready.value.uid in w.runs)
    && forall i, j {:trigger QueuedBefore(rs[i], rs[j])} ::
         0 <= i < n && 0 <= j < n && QueuedBefore(rs[i], rs[j]) && HasGone(w, rs[j].uid) ==> HasEnded(w, rs[i].uid)
  }

  lemma ViewIsKeyed(rs: seq<Run>, n: nat, w: World, view: map<string, Run>)
    requires Has(rs, n, w) && IsListing(view, w.runs)
    ensures Keyed(view)
  {
    forall u | u in view ensures view[u].uid == u {
      assert IsOldCopy(view[u], w.runs[u]);
      assert IsOneOf(rs, n, u);
      var i :| 0 <= i < n && rs[i].uid == u;
      assert IsThere(w, rs[i]);
    }
  }

  /** A run goes only when those queued before it have ended, for each of them is listed and due. */
  lemma DecidedInTurn(rs: seq<Run>, n: nat, now: int, w: World, e: Event)
    requires KeepsTurn(rs, now) && InTurn(rs, n, w) && now <= w.now
    requires e.Decided? && Enabled(w, e) && Fits(rs, n, e)
    ensures InTurn(rs, n, After(w, e))
  {
    var w2, view := After(w, e), e.view;
    ViewIsKeyed(rs, n, w, view);
    GoesWhen(view, w.now, w.runs[e.uid]);
    forall i | 0 <= i < n ensures IsThere(w2, rs[i]) {
      assert IsThere(w, rs[i]);
    }
    forall i, j | 0 <= i < n && 0 <= j < n && QueuedBefore(rs[i], rs[j]) && HasGone(w2, rs[j].uid)
      ensures HasEnded(w2, rs[i].uid)
    {
      if rs[j].uid == e.uid {
        var x := rs[i].uid;
        assert IsThere(w, rs[i]) && IsThere(w, rs[j]);
        assert i < j && x in view && !CanBePassed(rs[i], rs[j], now);
        assert IsOldCopy(view[x], w.runs[x]);
        assert !IsActive(view[x]) && !(IsDue(view[x], w.now) && QueuedBefore(view[x], w.runs[e.uid]));
      } else {
        assert HasGone(w, rs[j].uid);
      }
    }
  }

  lemma StillGone(w: World, e: Event, uid: string)
    requires Enabled(w, e) && !e.Decided? && HasGone(After(w, e), uid)
    ensures HasGone(w, uid)
  {}

  lemma StillEnded(w: World, e: Event, uid: string)
    requires Enabled(w, e) && HasEnded(w, uid)
    ensures HasEnded(After(w, e), uid)
  {}

  lemma StepInTurn(rs: seq<Run>, n: nat, now: int, w: World, e: Event)
    requires AreCreations(rs) && KeepsTurn(rs, now) && InTurn(rs, n, w) && now <= w.now
    requires Enabled(w, e) && Fits(rs, n, e)
    ensures InTurn(rs, Created(n, e), After(w, e)) && now <= After(w, e).now
  {
    if e.Decided? {
      DecidedInTurn(rs, n, now, w, e);
    } else {
      var m, w2 := Created(n, e), After(w, e);
      HasStays(rs, n, w, e);
      forall i, j | 0 <= i < m && 0 <= j < m && QueuedBefore(rs[i], rs[j]) && HasGone(w2, rs[j].uid)
        ensures HasEnded(w2, rs[i].uid)
      {
        StillGone(w, e, rs[j].uid);
        assert j < n && i < j;
        assert IsThere(w, rs[i]);
        StillEnded(w, e, rs[i].uid);
      }
    }
  }

  lemma StillThere(w: World, e: Event, r: Run)
    requires Enabled(w, e) && IsThere(w, r)
    ensures IsThere(After(w, e), r)
  {}

  lemma HasStays(rs: seq<Run>, n: nat, w: World, e: Event)
    requires AreCreations(rs) && Has(rs, n, w) && Enabled(w, e) && Fits(rs, n, e)
    ensures Has(rs, Created(n, e), After(w, e))
  {
    var m, w2 := Created(n, e), After(w, e);
    forall u | u in w2.runs ensures IsOneOf(rs, m, u) {
      if u in w.runs {
        assert IsOneOf(rs, n, u);
        var i :| 0 <= i < n && rs[i].uid == u;
        assert rs[i].uid == u;
      } else {
        assert rs[n].uid == u;
      }
    }
    forall i | 0 <= i < m ensures IsThere(w2, rs[i]) {
      if i < n {
        assert IsThere(w, rs[i]);
        StillThere(w, e, rs[i]);
      }
    }
  }

  lemma NotBeforeOneGone(rs: seq<Run>, n: nat, w: World, i: nat, j: nat)
    requires InTurn(rs, n, w) && i < n && j < n && QueuedBefore(rs[i], rs[j])
    ensures HasGone(w, rs[j].uid) ==> !(rs[i].uid in w.runs && IsActive(w.runs[rs[i].uid]))
  {}

  /** Of two runs that have gone one is queued before the other, and has ended. */
  lemma InTurnIsAlone(rs: seq<Run>, n: nat, w: World)
    requires AreCreations(rs) && InTurn(rs, n, w)
    ensures OneActive(w.runs)
  {
    forall u, v | u in w.runs && v in w.runs ensures IsActive(w.runs[u]) && IsActive(w.runs[v]) ==> u == v {
      assert IsOneOf(rs, n, u) && IsOneOf(rs, n, v);
      var i :| 0 <= i < n && rs[i].uid == u;
      var j :| 0 <= j < n && rs[j].uid == v;
      BeforeTotal(PlaceOf(rs[i]), PlaceOf(rs[j]));
      if QueuedBefore(rs[i], rs[j]) {
        NotBeforeOneGone(rs, n, w, i, j);
      } else if i != j {
        NotBeforeOneGone(rs, n, w, j, i);
      }
    }
  }

  lemma {:induction false} TurnsAreExclusive(rs: seq<Run>, n: nat, now: int, w: World, events: seq<Event>)
    requires AreCreations(rs) && KeepsTurn(rs, now) && InTurn(rs, n, w) && now <= w.now && Follows(rs, n, w, events)
    ensures Execution(w, events) && Exclusive(w, events)
    decreases |events|
  {
    InTurnIsAlone(rs, n, w);
    if events != [] {
      StepInTurn(rs, n, now, w, events[0]);
      TurnsAreExclusive(rs, Created(n, events[0]), now, After(w, events[0]), events[1..]);
    }
  }

  /** The events lead from w, with n runs created and past listings, to w2 with n2 and past2. */
  ghost predicate Leads(rs: seq<Run>, n: nat, past: set<map<string, Run>>, w: World, events: seq<Event>,
                        n2: nat, past2: set<map<string, Run>>, w2: World)
    decreases |events|
  {
    if events == [] then n == n2 && past2 <= past && w == w2
    else
      && Enabled(w, events[0]) && Fits(rs, n, events[0])
      && (events[0].Decided? ==> events[0].view in past + {w.runs})
      && Leads(rs, Created(n, events[0]), past + {w.runs}, After(w, events[0]), events[1..], n2, past2, w2)
  }

  lemma {:induction false} LeadsMore(rs: seq<Run>, n: nat, past: set<map<string, Run>>, more: set<map<string, Run>>, w: World,
                                     es: seq<Event>, n2: nat, past2: set<map<string, Run>>, w2: World)
    requires Leads(rs, n, past, w, es, n2, past2, w2) && past <= more
    ensures Leads(rs, n, more, w, es, n2, past2, w2)
    decreases |es|
  {
    if es != [] {
      LeadsMore(rs, Created(n, es[0]), past + {w.runs}, more + {w.runs}, After(w, es[0]), es[1..], n2, past2, w2);
    }
  }

  lemma {:induction false} LeadsOn(rs: seq<Run>, n: nat, past: set<map<string, Run>>, w: World, es: seq<Event>,
                                   n1: nat, past1: set<map<string, Run>>, w1: World, fs: seq<Event>,
                                   n2: nat, past2: set<map<string, Run>>, w2: World)
    requires Leads(rs, n, past, w, es, n1, past1, w1) && Leads(rs, n1, past1, w1, fs, n2, past2, w2)
    ensures Leads(rs, n, past, w, es + fs, n2, past2, w2)
    decreases |es|
  {
    if es == [] {
      assert es + fs == fs;
      LeadsMore(rs, n, past1, past, w, fs, n2, past2, w2);
    } else {
      ConcatTail(es, fs);
      LeadsOn(rs, Created(n, es[0]), past + {w.runs}, After(w, es[0]), es[1..], n1, past1, w1, fs, n2, past2, w2);
    }
  }

  lemma LeadsOne(rs: seq<Run>, n: nat, past: set<map<string, Run>>, w: World, e: Event)
    requires Enabled(w, e) && Fits(rs, n, e) && (e.Decided? ==> e.view in past + {w.runs})
    ensures Leads(rs, n, past, w, [e], Created(n, e), past + {w.runs}, After(w, e))
  {
    assert [e][1..] == [];
    assert Leads(rs, Created(n, e), past + {w.runs}, After(w, e), [], Created(n, e), past + {w.runs}, After(w, e));
  }

  lemma {:induction false} LeadsToTwo(rs: seq<Run>, n: nat, past: set<map<string, Run>>, w: World, events: seq<Event>,
                                      n2: nat, past2: set<map<string, Run>>, w2: World)
    requires Leads(rs, n, past, w, events, n2, past2, w2)
    ensures Follows(rs, n, w, events) && Execution(w, events) && FromPast(past, w, events)
    ensures !OneActive(w2.runs) ==> !Exclusive(w, events)
    decreases |events|
  {
    if events != [] {
      LeadsToTwo(rs, Created(n, events[0]), past + {w.runs}, After(w, events[0]), events[1..], n2, past2, w2);
    }
  }

  /** What became of a run: those of interest are left waiting, the others are aborted. */
  function Left(r: Run, keep: set<string>): Run {
    if r.uid in keep then r else r.(phase := Aborted)
  }

  /** The next run is created, and aborted at once unless it is to be kept. */
  lemma CreatesOne(rs: seq<Run>, n: nat, past: set<map<string, Run>>, w: World, keep: set<string>) returns (es: seq<Event>)
    requires AreCreations(rs) && Has(rs, n, w) && n < |rs|
    ensures rs[n].uid !in w.runs
    ensures var w2 := w.(runs := w.runs[rs[n].uid := Left(rs[n], keep)]);
            Leads(rs, n, past, w, es, n + 1, past, w2) && Has(rs, n + 1, w2)
  {
    var r := rs[n];
    forall u | u in w.runs ensures u != r.uid && w.runs[u].name != r.name {
      assert IsOneOf(rs, n, u);
      var i :| 0 <= i < n && rs[i].uid == u;
      assert IsThere(w, rs[i]);
    }
    HasStays(rs, n, w, Create(r));
    var w1 := After(w, Create(r));
    LeadsOne(rs, n, past, w, Create(r));
    es := [Create(r)];
    if r.uid !in keep {
      HasStays(rs, n + 1, w1, Ends(r.uid, Aborted));
      var w2 := After(w1, Ends(r.uid, Aborted));
      LeadsOne(rs, n + 1, past + {w.runs}, w1, Ends(r.uid, Aborted));
      LeadsOn(rs, n, past, w, es, n + 1, past + {w.runs}, w1, [Ends(r.uid, Aborted)], n + 1, past + {w.runs} + {w1.runs}, w2);
      es := es + [Ends(r.uid, Aborted)];
      assert w2.runs == w.runs[r.uid := Left(r, keep)];
      LeadsForgets(rs, n, past, w, es, n + 1, past + {w.runs} + {w1.runs}, past, w2);
    } else {
      LeadsForgets(rs, n, past, w, es, n + 1, past + {w.runs}, past, w1);
    }
  }

  lemma {:induction false} LeadsForgets(rs: seq<Run>, n: nat, past: set<map<string, Run>>, w: World, es: seq<Event>,
                                        n2: nat, past2: set<map<string, Run>>, fewer: set<map<string, Run>>, w2: World)
    requires Leads(rs, n, past, w, es, n2, past2, w2) && fewer <= past2
    ensures Leads(rs, n, past, w, es, n2, fewer, w2)
    decreases |es|
  {
    if es != [] {
      LeadsForgets(rs, Created(n, es[0]), past + {w.runs}, After(w, es[0]), es[1..], n2, past2, fewer, w2);
    }
  }

  predicate IsLeft(runs: map<string, Run>, r: Run, keep: set<string>) {
    r.uid in runs && runs[r.uid] == Left(r, keep)
  }

  ghost predicate AreLeft(rs: seq<Run>, n: nat, m: nat, runs: map<string, Run>, keep: set<string>)
    requires m <= |rs|
  {
    forall k {:trigger IsLeft(runs, rs[k], keep)} :: n <= k < m ==> IsLeft(runs, rs[k], keep)
  }

  /** The runs up to m are created, and all but those to keep are aborted at once. */
  lemma {:induction false} CreatesUpTo(rs: seq<Run>, n: nat, past: set<map<string, Run>>, w: World, m: nat, keep: set<string>)
    returns (es: seq<Event>, w2: World)
    requires AreCreations(rs) && Has(rs, n, w) && n <= m <= |rs|
    ensures Leads(rs, n, past, w, es, m, past, w2) && Has(rs, m, w2) && w2.now == w.now && w2.ready == w.ready
    ensures forall u {:trigger u in w.runs} :: u in w.runs ==> u in w2.runs && w2.runs[u] == w.runs[u]
    ensures AreLeft(rs, n, m, w2.runs, keep)
    decreases m - n
  {
    if n == m {
      return [], w;
    }
    var one := CreatesOne(rs, n, past, w, keep);
    var w1 := w.(runs := w.runs[rs[n].uid := Left(rs[n], keep)]);
    var rest;
    rest, w2 := CreatesUpTo(rs, n + 1, past, w1, m, keep);
    LeadsOn(rs, n, past, w, one, n + 1, past, w1, rest, m, past, w2);
    es := one + rest;
    assert rs[n].uid in w1.runs;
    forall k | n <= k < m ensures IsLeft(w2.runs, rs[k], keep) {
      assert k == n ==> w1.runs[rs[n].uid] == Left(rs[n], keep);
    }
    forall u | u in w.runs ensures u in w2.runs && w2.runs[u] == w.runs[u] {
      assert u in w1.runs && u != rs[n].uid;
    }
  }

  function Max(a: int, b: int): int {
    if a < b then b else a
  }

  /** The first time from now on that the run may start. */
  function DueAt(r: Run, now: int): int {
    if r.notBefore.Some? then Max(now, r.notBefore.value) else now
  }

  /** Decided on this listing the run goes. */
  ghost predicate LetsGo(view: map<string, Run>, now: int, r: Run) {
    forall u {:trigger view[u]} :: u in view && u != r.uid ==>
      view[u].uid == u && !IsActive(view[u]) && !(IsDue(view[u], now) && QueuedBefore(view[u], r))
  }

  /** Once it is due, a run that waits is let go on a listing of all runs. */
  lemma IsLetGo(rs: seq<Run>, n: nat, past: set<map<string, Run>>, w: World, j: nat, now: int, view: map<string, Run>)
    returns (es: seq<Event>)
    requires AreCreations(rs) && Has(rs, n, w) && j < n && w.ready.None? && w.now <= now
    requires rs[j].uid in w.runs && w.runs[rs[j].uid] == rs[j] && DueAt(rs[j], now) == now
    requires IsListing(view, w.runs) && view.Keys == w.runs.Keys && LetsGo(view, now, rs[j]) && view in past + {w.runs}
    ensures Leads(rs, n, past, w, es, n, past, World(w.runs, now, Some(Ready(rs[j].uid, view))))
  {
    var uid := rs[j].uid;
    ViewIsKeyed(rs, n, w, view);
    GoesWhen(view, now, rs[j]);
    LeadsOne(rs, n, past, w, Tick(now));
    var w1 := w.(now := now);
    forall i, k {:trigger rs[i], rs[k]} | 0 <= i < k < |rs| && rs[k].uid == uid ensures rs[i].uid in view {
      assert k == j;
      assert IsThere(w, rs[i]);
    }
    LeadsOne(rs, n, past + {w.runs}, w1, Decided(uid, view));
    var w2 := World(w.runs, now, Some(Ready(uid, view)));
    es := [Tick(now)] + [Decided(uid, view)];
    LeadsOn(rs, n, past, w, [Tick(now)], n, past + {w.runs}, w1, [Decided(uid, view)], n, past + {w.runs} + {w1.runs}, w2);
    LeadsForgets(rs, n, past, w, es, n, past + {w.runs} + {w1.runs}, past, w2);
  }

  lemma HasStarted(rs: seq<Run>, n: nat, w: World, j: nat, w2: World)
    requires AreCreations(rs) && Has(rs, n, w) && j < n && w2.runs == w.runs[rs[j].uid := Started(rs[j])]
    ensures Has(rs, n, w2)
  {
    assert IsThere(w, rs[j]);
    forall u | u in w2.runs ensures IsOneOf(rs, n, u) {
      assert u in w.runs;
      assert IsOneOf(rs, n, u);
    }
    forall i | 0 <= i < n ensures IsThere(w2, rs[i]) {
      assert IsThere(w, rs[i]);
    }
  }

  /** Run i, queued before run j, can be overtaken by it: it is created later, or scheduled for later. */
  predicate Overtaken(rs: seq<Run>, now: int, i: nat, j: nat) {
    && i < |rs| && j < |rs| && QueuedBefore(rs[i], rs[j])
    && (j < i || (i < j && CanBePassed(rs[i], rs[j], now)))
  }

  /** The listing that run j goes on is as things are: run i is not there yet, or scheduled for later. */
  lemma FirstGoes(rs: seq<Run>, now: int, i: nat, j: nat, w: World)
    requires AreCreations(rs) && Overtaken(rs, now, i, j)
    requires Has(rs, j + 1, w) && AreLeft(rs, 0, j + 1, w.runs, {rs[i].uid, rs[j].uid})
    ensures LetsGo(w.runs, DueAt(rs[j], now), rs[j]) && IsListing(w.runs, w.runs)
  {
    var keep := {rs[i].uid, rs[j].uid};
    forall u | u in w.runs && u != rs[j].uid
      ensures w.runs[u].uid == u && !IsActive(w.runs[u]) && !(IsDue(w.runs[u], DueAt(rs[j], now)) && QueuedBefore(w.runs[u], rs[j]))
    {
      assert IsOneOf(rs, j + 1, u);
      var k :| 0 <= k < j + 1 && rs[k].uid == u;
      assert IsLeft(w.runs, rs[k], keep);
      assert k != i ==> rs[k].uid !in keep;
    }
  }

  /** Run j is let go while run i is not there yet or is scheduled for later; before it starts run i is there. */
  lemma OneGoes(rs: seq<Run>, now: int, i: nat, j: nat) returns (es: seq<Event>, n: nat, w: World)
    requires AreCreations(rs) && Overtaken(rs, now, i, j)
    ensures i < n && j < n && Leads(rs, 0, {}, Empty(now), es, n, {}, w) && Has(rs, n, w)
    ensures w.ready.Some? && w.ready.value.uid == rs[j].uid && DueAt(rs[j], w.now) == w.now
    ensures AreLeft(rs, 0, n, w.runs, {rs[i].uid, rs[j].uid})
  {
    var keep := {rs[i].uid, rs[j].uid};
    var made, w1 := CreatesUpTo(rs, 0, {}, Empty(now), j + 1, keep);
    var at := DueAt(rs[j], now);
    assert IsLeft(w1.runs, rs[j], keep);
    FirstGoes(rs, now, i, j, w1);
    var go := IsLetGo(rs, j + 1, {}, w1, j, at, w1.runs);
    var w2 := World(w1.runs, at, Some(Ready(rs[j].uid, w1.runs)));
    LeadsOn(rs, 0, {}, Empty(now), made, j + 1, {}, w1, go, j + 1, {}, w2);
    HasSame(rs, j + 1, w1, w2);
    n := if i < j then j + 1 else i + 1;
    var more;
    more, w := CreatesUpTo(rs, j + 1, {}, w2, n, keep);
    LeadsOn(rs, 0, {}, Empty(now), made + go, j + 1, {}, w2, more, n, {}, w);
    es := made + go + more;
    forall k | 0 <= k < n ensures IsLeft(w.runs, rs[k], keep) {
      assert k < j + 1 ==> IsLeft(w1.runs, rs[k], keep);
    }
  }

  lemma HasSame(rs: seq<Run>, n: nat, w: World, w2: World)
    requires Has(rs, n, w) && w2.runs == w.runs
    ensures Has(rs, n, w2)
  {
    forall i | 0 <= i < n ensures IsThere(w2, rs[i]) {
      assert IsThere(w, rs[i]);
    }
  }

  /** What there was before run j started, as a listing, lets run i go. */
  lemma SecondGoes(rs: seq<Run>, now: int, i: nat, j: nat, n: nat, w: World, at: int)
    requires AreCreations(rs) && Overtaken(rs, now, i, j) && i < n && j < n && Has(rs, n, w)
    requires AreLeft(rs, 0, n, w.runs, {rs[i].uid, rs[j].uid})
    ensures LetsGo(w.runs, at, rs[i])
  {
    var keep := {rs[i].uid, rs[j].uid};
    forall u | u in w.runs && u != rs[i].uid
      ensures w.runs[u].uid == u && !IsActive(w.runs[u]) && !(IsDue(w.runs[u], at) && QueuedBefore(w.runs[u], rs[i]))
    {
      assert IsOneOf(rs, n, u);
      var k :| 0 <= k < n && rs[k].uid == u;
      assert IsLeft(w.runs, rs[k], keep);
      if k == j {
        BeforeTotal(PlaceOf(rs[i]), PlaceOf(rs[j]));
      } else {
        assert u !in keep;
      }
    }
  }

  /** So both are active, though every listing was once true. */
  lemma BothGo(rs: seq<Run>, now: int, i: nat, j: nat) returns (es: seq<Event>)
    requires AreCreations(rs) && Overtaken(rs, now, i, j)
    ensures Follows(rs, 0, Empty(now), es) && Execution(Empty(now), es) && FromPast({}, Empty(now), es)
    ensures !Exclusive(Empty(now), es)
  {
    var keep := {rs[i].uid, rs[j].uid};
    var gone, n, w := OneGoes(rs, now, i, j);
    assert IsLeft(w.runs, rs[i], keep) && IsLeft(w.runs, rs[j], keep) && rs[i].uid != rs[j].uid;
    LeadsOne(rs, n, {}, w, Start);
    var w1 := After(w, Start);
    var past := {} + {w.runs};
    LeadsOn(rs, 0, {}, Empty(now), gone, n, {}, w, [Start], n, past, w1);
    HasStarted(rs, n, w, j, w1);
    var at := DueAt(rs[i], w1.now);
    SecondGoes(rs, now, i, j, n, w, at);
    var go := IsLetGo(rs, n, past, w1, i, at, w.runs);
    var w2 := World(w1.runs, at, Some(Ready(rs[i].uid, w.runs)));
    LeadsOn(rs, 0, {}, Empty(now), gone + [Start], n, past, w1, go, n, past, w2);
    LeadsOne(rs, n, past, w2, Start);
    var w3 := After(w2, Start);
    LeadsOn(rs, 0, {}, Empty(now), gone + [Start] + go, n, past, w2, [Start], n, past + {w2.runs}, w3);
    es := gone + [Start] + go + [Start];
    assert IsActive(w3.runs[rs[i].uid]) && IsActive(w3.runs[rs[j].uid]);
    LeadsToTwo(rs, 0, {}, Empty(now), es, n, past + {w2.runs}, w3);
  }

  /**
   Whatever listings do not show yet of starts, runs of one Test exclude each other, however they are set up
   and end, exactly when none can be overtaken by one that is queued behind it: it is created first, and is
   not scheduled for later than the other. Otherwise listings go wrong that were all true at some moment.
   */
  lemma ExclusiveExactlyInTurn(rs: seq<Run>, now: int)
    requires AreCreations(rs)
    ensures KeepsTurn(rs, now) <==>
            forall es :: Follows(rs, 0, Empty(now), es) && Execution(Empty(now), es) ==> Exclusive(Empty(now), es)
    ensures KeepsTurn(rs, now) <==>
            forall es :: Follows(rs, 0, Empty(now), es) && Execution(Empty(now), es) && FromPast({}, Empty(now), es) ==>
              Exclusive(Empty(now), es)
  {
    if KeepsTurn(rs, now) {
      forall es | Follows(rs, 0, Empty(now), es) && Execution(Empty(now), es) ensures Exclusive(Empty(now), es) {
        TurnsAreExclusive(rs, 0, now, Empty(now), es);
      }
    } else {
      var i: nat, j: nat :| i < |rs| && j < |rs| && QueuedBefore(rs[i], rs[j]) && !(i < j && !CanBePassed(rs[i], rs[j], now));
      BeforeTotal(PlaceOf(rs[i]), PlaceOf(rs[i]));
      var es := BothGo(rs, now, i, j);
    }
  }

  /** So it is for runs without a schedule that are created in the order of their places: each in a later second, or with a later name. */
  lemma UnscheduledInOrder(rs: seq<Run>, now: int)
    requires forall i {:trigger rs[i]} :: 0 <= i < |rs| ==> rs[i].notBefore.None?
    requires forall i, j {:trigger rs[i], rs[j]} :: 0 <= i < j < |rs| ==> QueuedBefore(rs[i], rs[j])
    ensures KeepsTurn(rs, now)
  {
    forall i, j | 0 <= i < |rs| && 0 <= j < |rs| && QueuedBefore(rs[i], rs[j]) ensures i < j && !CanBePassed(rs[i], rs[j], now) {
      BeforeTotal(PlaceOf(rs[i]), PlaceOf(rs[j]));
      BeforeTotal(PlaceOf(rs[i]), PlaceOf(rs[i]));
    }
  }

  // ----- The queue moves on -----------------------------------------------------------

  ghost predicate IsLeastDue(w: World, uid: string) {
    && uid in w.runs && IsDue(w.runs[uid], w.now)
    && forall u {:trigger w.runs[u]} :: u in w.runs && u != uid && IsDue(w.runs[u], w.now) ==> QueuedBefore(w.runs[uid], w.runs[u])
  }

  lemma BeforeIsOrder()
    ensures IsOrder(Before)
  {
    forall a, b | a != b ensures Before(a, b) || Before(b, a) {
      BeforeTotal(a, b);
    }
    forall a, b, c | Before(a, b) && Before(b, c) ensures Before(a, c) {
      BeforeTransitive(a, b, c);
    }
  }

  /** When nothing is active, a due run that sees all runs as they are goes exactly when it is the first in the queue. */
  lemma LeastDueGoes(w: World, uid: string)
    requires Inv(w) && uid in w.runs && IsDue(w.runs[uid], w.now)
    requires forall u {:trigger w.runs[u]} :: u in w.runs ==> !IsActive(w.runs[u])
    ensures Goes(w.runs, w.now, w.runs[uid]) <==> IsLeastDue(w, uid)
  {
    GoesWhen(w.runs, w.now, w.runs[uid]);
    forall u | u in w.runs
      ensures u != uid ==> (QueuedBefore(w.runs[u], w.runs[uid]) <==> !QueuedBefore(w.runs[uid], w.runs[u]))
    {
      BeforeTotal(PlaceOf(w.runs[u]), PlaceOf(w.runs[uid]));
    }
  }

  /** So waiting runs never block one another for good: if any is due, one of them goes. */
  lemma SomeoneGoes(w: World)
    requires Inv(w) && exists u :: u in w.runs && IsDue(w.runs[u], w.now)
    requires forall u {:trigger w.runs[u]} :: u in w.runs ==> !IsActive(w.runs[u])
    ensures exists u :: IsLeastDue(w, u) && Goes(w.runs, w.now, w.runs[u])
  {
    var places := set u | u in w.runs && IsDue(w.runs[u], w.now) :: PlaceOf(w.runs[u]);
    var someone :| someone in w.runs && IsDue(w.runs[someone], w.now);
    assert PlaceOf(w.runs[someone]) in places;
    BeforeIsOrder();
    LeastExists(places, Before);
    var least :| IsLeast(places, Before, least);
    var u :| u in w.runs && IsDue(w.runs[u], w.now) && PlaceOf(w.runs[u]) == least;
    forall v | v in w.runs && v != u && IsDue(w.runs[v], w.now) ensures QueuedBefore(w.runs[u], w.runs[v]) {
      assert PlaceOf(w.runs[v]) in places && w.runs[v].name != w.runs[u].name;
    }
    LeastDueGoes(w, u);
  }

  /** Two waiting runs that each see some unfinished copy of the other do not both go, however old the copies are. */
  lemma NotBoth(a: Run, b: Run, oldA: Run, oldB: Run, seenByA: set<Run>, seenByB: set<Run>)
    requires a.uid != b.uid && a.name != b.name
    requires IsOldCopy(oldA, a) && IsOldCopy(oldB, b) && !IsTerminal(oldA.phase) && !IsTerminal(oldB.phase)
    requires oldB in seenByA && oldA in seenByB
    ensures !(Decide(seenByA, Some(a), Forbid) == Proceed && Decide(seenByB, Some(b), Forbid) == Proceed)
  {
    BeforeTotal(PlaceOf(a), PlaceOf(b));
  }
}
