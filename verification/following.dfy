/**
 Following a log while it is written: what a chunk stream has sent when tailers crash and
 resume in between, against what the store holds in the end.
 */
module Following {
  import opened Bytes
  import opened Transducer
  import opened Replay
  import opened Readers
  import Resume

  /** The stored chunks below top, as they are listed. */
  function Listing(chunks: map<nat, bytes>, top: nat): seq<Chunk> {
    seq(top, k requires 0 <= k < top => Chunk(k, if k in chunks then chunks[k] else []))
  }

  function ListingAt(w: Resume.World): seq<Chunk> {
    Listing(w.store.chunks, w.hist.top)
  }

  /** A reader gets the listed bodies, one after the other. */
  lemma {:induction false} ListedIsStored(chunks: map<nat, bytes>, top: nat)
    ensures Flatten(Bodies(Listing(chunks, top))) == Resume.Concat(chunks, top)
  {
    var l := Listing(chunks, top);
    if top == 0 {
      assert Bodies(l) == [];
    } else {
      ListedIsStored(chunks, top - 1);
      var c := l[top - 1];
      assert l == Listing(chunks, top - 1) + [c];
      BodiesSnoc(Listing(chunks, top - 1), c);
      FlattenSnoc(Bodies(Listing(chunks, top - 1)), c.body);
    }
  }

  // ----- What was sent of numbered chunks ---------------------------------------------

  ghost predicate Numbered(listing: seq<Chunk>) {
    forall k {:trigger listing[k]} :: 0 <= k < |listing| ==> listing[k].key == k
  }

  ghost predicate AllNumbered(seen: seq<seq<Chunk>>) {
    forall i {:trigger seen[i]} :: 0 <= i < |seen| ==> Numbered(seen[i])
  }

  function Below(n: nat): (r: set<nat>)
    ensures forall k: nat {:trigger k in r} :: k in r <==> k < n
  {
    if n == 0 then {} else Below(n - 1) + {n - 1}
  }

  /** The body that chunk k had in the first listing that showed it. */
  function FirstBody(seen: seq<seq<Chunk>>, k: nat): bytes
    requires k < Longest(seen)
  {
    var before := seen[..|seen| - 1];
    if k < Longest(before) then FirstBody(before, k) else seen[|seen| - 1][k].body
  }

  lemma {:induction false} UnsentNumbered(listing: seq<Chunk>, n: nat, m: nat)
    requires Numbered(listing) && m <= |listing|
    ensures Unsent(listing[..m], Below(n)) == Between(listing, n, m)
  {
    if m > 0 {
      UnsentNumbered(listing, n, m - 1);
      UnsentNext(listing, Below(n), m - 1);
      ConcatEmpty(Between(listing, n, m - 1));
    }
  }

  lemma {:induction false} BetweenAt(listing: seq<Chunk>, n: nat, m: nat)
    requires m <= |listing|
    ensures |Between(listing, n, m)| == if m <= n then 0 else m - n
    ensures forall k {:trigger listing[k]} :: n <= k < m ==> Between(listing, n, m)[k - n] == listing[k]
  {
    if m > n {
      BetweenAt(listing, n, m - 1);
    }
  }

  lemma NumberedKeys(listing: seq<Chunk>)
    requires Numbered(listing)
    ensures Keys(listing) == Below(|listing|)
  {
    forall k: nat ensures k in Keys(listing) <==> k in Below(|listing|) {
      if k in Below(|listing|) {
        assert listing[k].key == k;
      }
    }
  }

  lemma BelowBoth(n: nat, m: nat)
    ensures Below(n) + Below(m) == Below(if n < m then m else n)
  {}

  /** The chunks from n on that one more listing shows. */
  lemma NewBodies(listing: seq<Chunk>, n: nat)
    requires Numbered(listing)
    ensures var more := Bodies(Unsent(listing, Below(n)));
            && |more| == (if |listing| <= n then 0 else |listing| - n)
            && forall k {:trigger listing[k]} :: n <= k < |listing| ==> more[k - n] == listing[k].body
  {
    assert listing[..|listing|] == listing;
    UnsentNumbered(listing, n, |listing|);
    BetweenAt(listing, n, |listing|);
  }

  lemma DrainNumbered(s: Sent, n: nat, listing: seq<Chunk>)
    requires Numbered(listing) && s.keys == Below(n) && |s.bodies| == n
    ensures var d, m := Drain(s, listing), if n < |listing| then |listing| else n;
            && d.keys == Below(m) && |d.bodies| == m
            && (forall k {:trigger d.bodies[k]} :: 0 <= k < n ==> d.bodies[k] == s.bodies[k])
            && forall k {:trigger d.bodies[k]} :: n <= k < m ==> d.bodies[k] == listing[k].body
  {
    NumberedKeys(listing);
    BelowBoth(n, |listing|);
    NewBodies(listing, n);
  }

  /** A stream has sent every chunk that was listed, with the body it had then. */
  lemma {:induction false} SentAsFirstListed(seen: seq<seq<Chunk>>)
    requires AllNumbered(seen)
    ensures Drained(seen).keys == Below(Longest(seen)) && |Drained(seen).bodies| == Longest(seen)
    ensures forall k {:trigger Drained(seen).bodies[k]} :: 0 <= k < Longest(seen) ==> Drained(seen).bodies[k] == FirstBody(seen, k)
  {
    if seen != [] {
      var before, last := seen[..|seen| - 1], seen[|seen| - 1];
      assert forall i {:trigger before[i]} :: 0 <= i < |before| ==> before[i] == seen[i];
      SentAsFirstListed(before);
      DrainNumbered(Drained(before), Longest(before), last);
      forall k | 0 <= k < Longest(seen) ensures Drained(seen).bodies[k] == FirstBody(seen, k) {
        assert k < Longest(before) ==> Drained(before).bodies[k] == FirstBody(before, k);
      }
    }
  }

  lemma {:induction false} LongestAtMost(seen: seq<seq<Chunk>>, n: nat)
    requires forall i {:trigger seen[i]} :: 0 <= i < |seen| ==> |seen[i]| <= n
    ensures Longest(seen) <= n
  {
    if seen != [] {
      LongestAtMost(seen[..|seen| - 1], n);
    }
  }

  /** The listing that first showed chunk k. */
  lemma {:induction false} FirstListing(seen: seq<seq<Chunk>>, k: nat) returns (i: nat)
    requires k < Longest(seen)
    ensures i < |seen| && Longest(seen[..i]) <= k < |seen[i]| && FirstBody(seen, k) == seen[i][k].body
  {
    var before := seen[..|seen| - 1];
    if k < Longest(before) {
      i := FirstListing(before, k);
      assert before[..i] == seen[..i];
    } else {
      i := |seen| - 1;
    }
  }

  lemma {:induction false} FirstBodyIs(seen: seq<seq<Chunk>>, i: nat, k: nat)
    requires i < |seen| && Longest(seen[..i]) <= k < |seen[i]|
    ensures k < Longest(seen) && FirstBody(seen, k) == seen[i][k].body
  {
    var before := seen[..|seen| - 1];
    if i < |seen| - 1 {
      assert before[..i] == seen[..i] && before[i] == seen[i];
      FirstBodyIs(before, i, k);
    }
  }

  // ----- While tailers crash and resume -----------------------------------------------

  /** The chunks are wiped: an operator starts without a cursor, and there are some. */
  predicate Wipes(w: Resume.World, e: Resume.Event) {
    e.Start? && w.store.cursor.None? && w.hist.top > 0
  }

  ghost predicate NoWipe(worlds: seq<Resume.World>, events: seq<Resume.Event>, a: nat, b: nat)
    requires b <= |events| < |worlds|
  {
    forall x {:trigger events[x]} :: a <= x < b ==> !Wipes(worlds[x], events[x])
  }

  /** All chunks but the last stay as they are. */
  predicate KeepsChunks(w: Resume.World, w': Resume.World) {
    && w.hist.top <= w'.hist.top
    && forall k: nat {:trigger ListingAt(w')[k]} :: k + 1 < w.hist.top ==> ListingAt(w')[k] == ListingAt(w)[k]
  }

  lemma StepKeepsChunks(parse: Parser, log: Log, w: Resume.World, e: Resume.Event, w': Resume.World)
    requires Resume.Inv(parse, log, w) && Resume.Next(parse, log, w, e, w') && !Wipes(w, e)
    ensures KeepsChunks(w, w')
  {
    if e.PutChunk? {
      assert Resume.StoredSoFar(w, w.tailer.value, Resume.Now(log, w));
    }
  }

  lemma {:induction false} ChunksStay(parse: Parser, log: Log, worlds: seq<Resume.World>, events: seq<Resume.Event>, a: nat, b: nat)
    requires IsLog(parse, log) && Resume.IsRun(parse, log, worlds, events) && a <= b <= |events| && NoWipe(worlds, events, a, b)
    ensures KeepsChunks(worlds[a], worlds[b])
    decreases b
  {
    if a < b {
      ChunksStay(parse, log, worlds, events, a, b - 1);
      Resume.RunKeeps(parse, log, worlds, events, b - 1);
      assert Resume.Next(parse, log, worlds[b - 1], events[b - 1], worlds[b]);
      StepKeepsChunks(parse, log, worlds[b - 1], events[b - 1], worlds[b]);
      forall k: nat | k + 1 < worlds[a].hist.top ensures ListingAt(worlds[b])[k] == ListingAt(worlds[a])[k] {
        assert ListingAt(worlds[b - 1])[k] == ListingAt(worlds[a])[k];
      }
    }
  }

  /** The moments of a run at which a stream lists the chunks. */
  ghost predicate ArePolls(worlds: seq<Resume.World>, polls: seq<nat>) {
    && polls != []
    && (forall i {:trigger polls[i]} :: 0 <= i < |polls| ==> polls[i] < |worlds|)
    && forall i, j {:trigger polls[i], polls[j]} :: 0 <= i <= j < |polls| ==> polls[i] <= polls[j]
  }

  function Listed(worlds: seq<Resume.World>, polls: seq<nat>): (r: seq<seq<Chunk>>)
    requires forall i {:trigger polls[i]} :: 0 <= i < |polls| ==> polls[i] < |worlds|
    ensures |r| == |polls| && forall i {:trigger r[i]} :: 0 <= i < |polls| ==> r[i] == ListingAt(worlds[polls[i]])
  {
    seq(|polls|, i requires 0 <= i < |polls| => ListingAt(worlds[polls[i]]))
  }

  /** The poll got a new chunk, and its last one has another body in the end. */
  predicate LosesItsLast(seen: seq<seq<Chunk>>, i: nat, end: seq<Chunk>)
    requires i < |seen|
  {
    Longest(seen[..i]) < |seen[i]| && (|seen[i]| > |end| || end[|seen[i]| - 1] != seen[i][|seen[i]| - 1])
  }

  lemma EarlierListing(parse: Parser, log: Log, worlds: seq<Resume.World>, events: seq<Resume.Event>, polls: seq<nat>, i: nat)
    requires IsLog(parse, log) && Resume.IsRun(parse, log, worlds, events) && ArePolls(worlds, polls) && i < |polls|
    requires NoWipe(worlds, events, polls[0], polls[|polls| - 1])
    ensures KeepsChunks(worlds[polls[i]], worlds[polls[|polls| - 1]])
  {
    var n := polls[|polls| - 1];
    assert polls[0] <= polls[i] <= n;
    forall x {:trigger events[x]} | polls[i] <= x < n ensures !Wipes(worlds[x], events[x]) {
      assert polls[0] <= x < n;
    }
    ChunksStay(parse, log, worlds, events, polls[i], n);
  }

  /** No poll got a new chunk as its last one that has another body in the end. */
  ghost predicate NoneLosesItsLast(seen: seq<seq<Chunk>>, end: seq<Chunk>) {
    forall i {:trigger LosesItsLast(seen, i, end)} :: 0 <= i < |seen| ==> !LosesItsLast(seen, i, end)
  }

  /** The listings of numbered chunks that go on to an end, in which all but the last of each stay. */
  ghost predicate GoOnTo(seen: seq<seq<Chunk>>, end: seq<Chunk>) {
    && AllNumbered(seen) && seen != [] && seen[|seen| - 1] == end
    && forall i {:trigger StaysIn(seen[i], end)} :: 0 <= i < |seen| ==> StaysIn(seen[i], end)
  }

  ghost predicate StaysIn(a: seq<Chunk>, b: seq<Chunk>) {
    |a| <= |b| && forall k {:trigger b[k]} :: 0 <= k < |a| - 1 ==> b[k] == a[k]
  }

  lemma SentAtEnd(seen: seq<seq<Chunk>>, end: seq<Chunk>)
    requires GoOnTo(seen, end)
    ensures |Drained(seen).bodies| == Longest(seen) == |end|
  {
    SentAsFirstListed(seen);
    forall i | 0 <= i < |seen| ensures |seen[i]| <= |end| {
      assert StaysIn(seen[i], end);
    }
    LongestAtMost(seen, |end|);
  }

  lemma NoneLostIsReading(seen: seq<seq<Chunk>>, end: seq<Chunk>)
    requires GoOnTo(seen, end) && NoneLosesItsLast(seen, end)
    ensures Drained(seen).bodies == Bodies(end)
  {
    SentAtEnd(seen, end);
    SentAsFirstListed(seen);
    forall k | 0 <= k < |end| ensures Drained(seen).bodies[k] == end[k].body {
      var i := FirstListing(seen, k);
      assert StaysIn(seen[i], end) && !LosesItsLast(seen, i, end);
      assert k < |seen[i]| - 1 ==> end[k] == seen[i][k];
    }
  }

  lemma ReadingLosesNone(seen: seq<seq<Chunk>>, end: seq<Chunk>)
    requires GoOnTo(seen, end) && Drained(seen).bodies == Bodies(end)
    ensures NoneLosesItsLast(seen, end)
  {
    SentAsFirstListed(seen);
    forall i | 0 <= i < |seen| ensures !LosesItsLast(seen, i, end) {
      assert StaysIn(seen[i], end);
      if Longest(seen[..i]) < |seen[i]| {
        var k := |seen[i]| - 1;
        FirstBodyIs(seen, i, k);
        assert Drained(seen).bodies[k] == seen[i][k].body;
        assert Numbered(seen[i]) && seen[i][k].key == k && Numbered(seen[|seen| - 1]) && end[k].key == k;
      }
    }
  }

  /**
   Following equals reading: a stream that has listed the chunks at any moments of a run, and at last at
   its end, has sent exactly what is stored then, if and only if no poll lost the last chunk it got. That
   one is replaced when the tailer that stored it crashes before its cursor is put, and the next one stores
   something else under its number; all chunks before it stay as they are.
   */
  lemma FollowingIsReadingExactly(parse: Parser, log: Log, worlds: seq<Resume.World>, events: seq<Resume.Event>, polls: seq<nat>)
    requires IsLog(parse, log) && Resume.IsRun(parse, log, worlds, events) && ArePolls(worlds, polls)
    requires NoWipe(worlds, events, polls[0], polls[|polls| - 1])
    ensures var seen, end := Listed(worlds, polls), ListingAt(worlds[polls[|polls| - 1]]);
            Drained(seen).bodies == Bodies(end) <==> NoneLosesItsLast(seen, end)
  {
    var seen, end := Listed(worlds, polls), ListingAt(worlds[polls[|polls| - 1]]);
    forall i | 0 <= i < |seen| ensures StaysIn(seen[i], end) {
      EarlierListing(parse, log, worlds, events, polls, i);
      assert seen[i] == ListingAt(worlds[polls[i]]);
    }
    assert seen[|seen| - 1] == end;
    if NoneLosesItsLast(seen, end) {
      NoneLostIsReading(seen, end);
    }
    if Drained(seen).bodies == Bodies(end) {
      ReadingLosesNone(seen, end);
    }
  }
}
