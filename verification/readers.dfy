/**
 Readers of a stored log: the chunk stream that polls object storage, the text endpoint
 that skips an offset, and the CLI loop that follows a run.
 */
module Readers {
  import opened Bytes

  datatype Chunk = Chunk(key: nat, body: bytes)

  predicate Increasing(log: seq<Chunk>) {
    forall i, j {:trigger log[i], log[j]} :: 0 <= i < j < |log| ==> log[i].key < log[j].key
  }

  function Bodies(log: seq<Chunk>): (r: seq<bytes>)
    ensures |r| == |log| && forall i :: 0 <= i < |log| ==> r[i] == log[i].body
  {
    seq(|log|, i requires 0 <= i < |log| => log[i].body)
  }

  function Keys(log: seq<Chunk>): set<nat> {
    set i | 0 <= i < |log| :: log[i].key
  }

  /** The stored bytes once the writer has stored n chunks. */
  function Text(log: seq<Chunk>, n: nat): bytes
    requires n <= |log|
  {
    Flatten(Bodies(log[..n]))
  }

  lemma TextGrows(log: seq<Chunk>, m: nat, n: nat)
    requires m <= n <= |log|
    ensures Text(log, m) <= Text(log, n)
  {
    FlattenPrefix(Bodies(log[..n]), m);
    assert Bodies(log[..n])[..m] == Bodies(log[..m]);
  }

  // ----- chunkStream.stream -----------------------------------------------------------

  /** The listed chunks that were not sent yet, in key order. */
  function Unsent(listing: seq<Chunk>, sent: set<nat>): seq<Chunk> {
    if listing == [] then []
    else
      var c := listing[|listing| - 1];
      Unsent(listing[..|listing| - 1], sent) + if c.key in sent then [] else [c]
  }

  /** What a stream has sent: the keys, and the bodies in order. */
  datatype Sent = Sent(keys: set<nat>, bodies: seq<bytes>)

  function Drain(s: Sent, listing: seq<Chunk>): Sent {
    Sent(s.keys + Keys(listing), s.bodies + Bodies(Unsent(listing, s.keys)))
  }

  /** After these listings. */
  function Drained(listings: seq<seq<Chunk>>): Sent {
    if listings == [] then Sent({}, []) else Drain(Drained(listings[..|listings| - 1]), listings[|listings| - 1])
  }

  /**
   One poll round as the store and the client answer it: the listing, with the bodies as they
   are read, which chunk's read fails, at which chunk the client is gone, whether the run is
   then reported terminal, and whether the idle deadline has passed.
   */
  datatype Round = Round(listOk: bool, listing: seq<Chunk>, unreadable: Option<nat>, goneAt: Option<nat>,
                         terminal: bool, idle: bool)

  datatype Exit = Archived | Terminal | Idle | ClientGone | Failed | Cancelled

  /** How one drain of the listing went on. */
  datatype Outcome = Done(emittedAny: bool) | Disconnected | Broken

  /** What was drained: the rounds' listings, each of them whole but the last. */
  ghost predicate AreDrained(seen: seq<seq<Chunk>>, rounds: seq<Round>) {
    && |seen| <= |rounds|
    && forall i {:trigger seen[i]} :: 0 <= i < |seen| ==>
         seen[i] <= rounds[i].listing && (i < |seen| - 1 ==> seen[i] == rounds[i].listing)
  }

  ghost predicate AreWhole(seen: seq<seq<Chunk>>, rounds: seq<Round>) {
    && |seen| <= |rounds|
    && forall i {:trigger seen[i]} :: 0 <= i < |seen| ==> seen[i] == rounds[i].listing
  }

  lemma OneRoundMore(seen: seq<seq<Chunk>>, rounds: seq<Round>, part: seq<Chunk>)
    requires AreWhole(seen, rounds) && |seen| < |rounds| && part <= rounds[|seen|].listing
    ensures AreDrained(seen + [part], rounds)
    ensures part == rounds[|seen|].listing ==> AreWhole(seen + [part], rounds)
  {
    var more := seen + [part];
    forall i | 0 <= i < |more| ensures more[i] <= rounds[i].listing && (i < |more| - 1 ==> more[i] == rounds[i].listing) {
      if i < |seen| {
        assert more[i] == seen[i];
      }
    }
  }

  /** All listings but the last. */
  function Earlier(seen: seq<seq<Chunk>>): seq<seq<Chunk>>
    requires seen != []
  {
    seen[..|seen| - 1]
  }

  lemma EarlierThan(seen: seq<seq<Chunk>>, part: seq<Chunk>, n: nat)
    requires n <= |part|
    ensures Earlier(seen + [part[..n]]) == seen
    ensures n == |part| ==> part[..n] == part
  {}

  lemma DrainedNext(seen: seq<seq<Chunk>>, part: seq<Chunk>)
    ensures Drained(seen + [part]) == Drain(Drained(seen), part)
  {
    assert (seen + [part])[..|seen|] == seen;
  }

  class ChunkStream {
    const keepPolling: bool
    const hasTerminal: bool  // an IsTerminal callback is wired
    var sent: set<nat>
    var emitted: seq<bytes>

    constructor (keepPolling: bool, hasTerminal: bool)
      ensures Value() == Drained([])
      ensures this.keepPolling == keepPolling && this.hasTerminal == hasTerminal
    {
      this.keepPolling, this.hasTerminal := keepPolling, hasTerminal;
      sent, emitted := {}, [];
    }

    function Value(): Sent
      reads this
    {
      Sent(sent, emitted)
    }

    /** Emits the listed chunks that were not sent yet, in key order, up to where that fails. */
    method DrainOnce(r: Round) returns (d: Outcome, ghost n: nat)
      requires Increasing(r.listing)
      modifies this
      ensures n <= |r.listing| && Value() == Drain(old(Value()), r.listing[..n])
      ensures d.Done? ==> n == |r.listing| && (d.emittedAny <==> emitted != old(emitted))
      ensures d.Broken? ==> !r.listOk || r.unreadable == Some(n)
      ensures d.Disconnected? ==> r.goneAt == Some(n)
    {
      DrainNothing(Value());
      if !r.listOk {
        return Broken, 0;
      }
      var any := false;
      for i := 0 to |r.listing|
        invariant Value() == Drain(old(Value()), r.listing[..i])
        invariant old(emitted) <= emitted && (any <==> |emitted| > |old(emitted)|)
      {
        var c := r.listing[i];
        DrainNext(old(Value()), r.listing, i);
        if c.key !in sent {
          if r.unreadable == Some(i) {
            return Broken, i;
          }
          if r.goneAt == Some(i) {
            return Disconnected, i;
          }
          emitted := emitted + [c.body];
          sent := sent + {c.key};
          any := true;
        }
      }
      assert r.listing[..|r.listing|] == r.listing;
      return Done(any), |r.listing|;
    }

    /** One round: whether it is the last, and otherwise whether the run was seen to be over. */
    method Poll(r: Round, terminalSeen: bool) returns (exit: Option<Exit>, over: bool, ghost n: nat)
      requires Increasing(r.listing)
      modifies this
      ensures n <= |r.listing| && Value() == Drain(old(Value()), r.listing[..n])
      ensures (n < |r.listing| ==> exit in {Some(Failed), Some(ClientGone)}) && exit != Some(Cancelled)
      ensures match exit
              case Some(Archived) => !keepPolling
              case Some(Terminal) => keepPolling && terminalSeen
              case Some(Idle) => keepPolling && !terminalSeen && !(hasTerminal && r.terminal) && r.idle && emitted == old(emitted)
              case Some(Failed) => !r.listOk || r.unreadable.Some?
              case Some(ClientGone) => r.goneAt.Some?
              case Some(Cancelled) => true
              case None => keepPolling && !terminalSeen && (over <==> hasTerminal && r.terminal)
    {
      var d;
      d, n := DrainOnce(r);
      if d.Broken? {
        return Some(Failed), false, n;
      }
      if d.Disconnected? {
        return Some(ClientGone), false, n;
      }
      if !keepPolling {
        return Some(Archived), false, n;
      }
      if terminalSeen {
        return Some(Terminal), false, n;
      }
      if hasTerminal && r.terminal {
        return None, true, n;
      }
      if !d.emittedAny && r.idle {
        return Some(Idle), false, n;
      }
      return None, false, n;
    }

    /**
     Polls until the run is over, the client is gone or something fails. What was emitted is
     what draining the listings one after the other gives. A stream that does not keep polling
     is over after one listing; one that does ends because the run is terminal, having drained
     a listing that was made after that was seen, or because the last listing gave nothing new
     and the deadline has passed.
     */
    method Run(rounds: seq<Round>) returns (exit: Exit, ghost seen: seq<seq<Chunk>>)
      requires Value() == Drained([]) && forall i {:trigger rounds[i]} :: 0 <= i < |rounds| ==> Increasing(rounds[i].listing)
      modifies this
      ensures Value() == Drained(seen) && AreDrained(seen, rounds)
      ensures exit in {Archived, Terminal, Idle} ==> seen != [] && seen[|seen| - 1] == rounds[|seen| - 1].listing
      ensures exit == Archived ==> !keepPolling && |seen| == 1
      ensures exit == Terminal ==> keepPolling && hasTerminal && |seen| > 1 && rounds[|seen| - 2].terminal
      ensures exit == Idle ==> keepPolling && rounds[|seen| - 1].idle && emitted == Drained(Earlier(seen)).bodies
      ensures exit == Failed ==> seen != [] && (!rounds[|seen| - 1].listOk || rounds[|seen| - 1].unreadable.Some?)
      ensures exit == ClientGone ==> seen != [] && rounds[|seen| - 1].goneAt.Some?
      ensures exit == Cancelled ==> |seen| == |rounds| && (rounds == [] || keepPolling)
      ensures hasTerminal ==> forall i {:trigger rounds[i]} :: 0 <= i < |seen| - 2 ==> !rounds[i].terminal
    {
      seen := [];
      var terminalSeen := false;
      for i := 0 to |rounds|
        invariant Value() == Drained(seen) && |seen| == i && AreWhole(seen, rounds)
        invariant i > 0 ==> keepPolling
        invariant terminalSeen ==> i > 0 && hasTerminal && rounds[i - 1].terminal
        invariant hasTerminal ==> forall k {:trigger rounds[k]} :: 0 <= k < i - (if terminalSeen then 1 else 0) ==> !rounds[k].terminal
      {
        var last, over;
        ghost var n;
        last, over, n := Poll(rounds[i], terminalSeen);
        OneRoundMore(seen, rounds, rounds[i].listing[..n]);
        DrainedNext(seen, rounds[i].listing[..n]);
        EarlierThan(seen, rounds[i].listing, n);
        seen := seen + [rounds[i].listing[..n]];
        if last.Some? {
          return last.value, seen;
        }
        terminalSeen := over;
      }
      return Cancelled, seen;
    }
  }

  lemma DrainNothing(s: Sent)
    ensures Drain(s, []) == s
  {
    assert Keys([]) == {};
    ConcatEmpty(s.bodies);
  }

  /** One chunk more of a listing. */
  lemma DrainNext(s: Sent, listing: seq<Chunk>, i: nat)
    requires Increasing(listing) && i < |listing|
    ensures var before, after, c := Drain(s, listing[..i]), Drain(s, listing[..i + 1]), listing[i];
            && (c.key in before.keys <==> c.key in s.keys)
            && after == (if c.key in s.keys then before else Sent(before.keys + {c.key}, before.bodies + [c.body]))
            && Unsent(listing[..i + 1], s.keys) == Unsent(listing[..i], s.keys) + if c.key in s.keys then [] else [c]
  {
    var c := listing[i];
    UnsentNext(listing, s.keys, i);
    KeysNext(listing, i);
    KeyAmong(listing, i, i);
    var unsent := Unsent(listing[..i], s.keys);
    BodiesSnoc(unsent, c);
    ConcatAssoc(s.bodies, Bodies(unsent), [c.body]);
  }

  lemma KeysNext(listing: seq<Chunk>, i: nat)
    requires i < |listing|
    ensures Keys(listing[..i + 1]) == Keys(listing[..i]) + {listing[i].key}
  {
    var less, more := listing[..i], listing[..i + 1];
    forall k ensures k in Keys(more) <==> k in Keys(less) + {listing[i].key} {
      if k in Keys(less) {
        var j :| 0 <= j < |less| && less[j].key == k;
        assert more[j].key == k;
      }
      assert more[i].key == listing[i].key;
    }
  }

  /** The longest of these listings. */
  function Longest(listings: seq<seq<Chunk>>): (n: nat)
    ensures forall i {:trigger listings[i]} :: 0 <= i < |listings| ==> |listings[i]| <= n
  {
    if listings == [] then 0
    else
      var n := Longest(listings[..|listings| - 1]);
      var last := |listings[|listings| - 1]|;
      assert forall i {:trigger listings[i]} :: 0 <= i < |listings| - 1 ==> listings[i] == listings[..|listings| - 1][i];
      if n < last then last else n
  }

  /** The chunks from number n on and before number m. */
  function Between(log: seq<Chunk>, n: nat, m: nat): seq<Chunk>
    requires m <= |log|
  {
    if m <= n then [] else Between(log, n, m - 1) + [log[m - 1]]
  }

  /** Once the first n are sent, those of the first m that are not. */
  lemma {:induction false} UnsentTail(log: seq<Chunk>, n: nat, m: nat)
    requires Increasing(log) && n <= |log| && m <= |log|
    ensures Unsent(log[..m], Keys(log[..n])) == Between(log, n, m)
  {
    if m > 0 {
      UnsentTail(log, n, m - 1);
      UnsentNext(log, Keys(log[..n]), m - 1);
      KeyAmong(log, n, m - 1);
      ConcatEmpty(Between(log, n, m - 1));
    }
  }

  lemma {:induction false} BodiesBetween(log: seq<Chunk>, n: nat, m: nat)
    requires n <= m <= |log|
    ensures Bodies(log[..m]) == Bodies(log[..n]) + Bodies(Between(log, n, m))
  {
    if n == m {
      assert Bodies([]) == [];
      ConcatEmpty(Bodies(log[..n]));
    } else {
      BodiesBetween(log, n, m - 1);
      var c, rest := log[m - 1], Between(log, n, m - 1);
      assert log[..m] == log[..m - 1] + [c];
      BodiesSnoc(log[..m - 1], c);
      BodiesSnoc(rest, c);
      ConcatAssoc(Bodies(log[..n]), Bodies(rest), [c.body]);
    }
  }

  lemma BodiesSnoc(log: seq<Chunk>, c: Chunk)
    ensures Bodies(log + [c]) == Bodies(log) + [c.body]
  {}

  lemma UnsentNext(log: seq<Chunk>, sent: set<nat>, i: nat)
    requires i < |log|
    ensures Unsent(log[..i + 1], sent) == Unsent(log[..i], sent) + if log[i].key in sent then [] else [log[i]]
  {
    var part := log[..i + 1];
    assert part[..|part| - 1] == log[..i] && part[|part| - 1] == log[i];
  }

  /** A key belongs to one chunk. */
  lemma KeyOfOne(log: seq<Chunk>, n: nat, i: nat)
    requires Increasing(log) && n <= |log| && i < |log| && log[i].key in Keys(log[..n])
    ensures i < n
  {
    var j :| 0 <= j < n && log[..n][j].key == log[i].key;
    assert log[j].key == log[i].key;
  }

  lemma KeyAmong(log: seq<Chunk>, n: nat, i: nat)
    requires Increasing(log) && n <= |log| && i < |log|
    ensures log[i].key in Keys(log[..n]) <==> i < n
  {
    if i < n {
      assert log[..n][i].key == log[i].key;
    } else if log[i].key in Keys(log[..n]) {
      KeyOfOne(log, n, i);
    }
  }

  lemma KeysOfPrefixes(log: seq<Chunk>, n: nat, m: nat)
    requires n <= |log| && m <= |log|
    ensures Keys(log[..n]) + Keys(log[..m]) == Keys(log[..if n < m then m else n])
  {
    var a, b := log[..n], log[..m];
    var c := if n < m then b else a;
    forall k ensures k in Keys(a) + Keys(b) <==> k in Keys(c) {
      if k in Keys(a) {
        var j :| 0 <= j < |a| && a[j].key == k;
        assert c[j].key == k;
      }
      if k in Keys(b) {
        var j :| 0 <= j < |b| && b[j].key == k;
        assert c[j].key == k;
      }
    }
  }

  /** Draining a prefix after a prefix. */
  lemma DrainPrefix(log: seq<Chunk>, n: nat, m: nat)
    requires Increasing(log) && n <= |log| && m <= |log|
    ensures var most := if n < m then m else n;
            Drain(Sent(Keys(log[..n]), Bodies(log[..n])), log[..m]) == Sent(Keys(log[..most]), Bodies(log[..most]))
  {
    UnsentTail(log, n, m);
    KeysOfPrefixes(log, n, m);
    if n < m {
      BodiesBetween(log, n, m);
    } else {
      assert Bodies([]) == [];
      ConcatEmpty(Bodies(log[..n]));
    }
  }

  /**
   While chunks are only added, with increasing keys, a stream has sent the beginning of the
   log, each chunk once and in order, as far as any of its listings went.
   */
  lemma {:induction false} FollowsTheLog(log: seq<Chunk>, seen: seq<seq<Chunk>>)
    requires Increasing(log) && forall i {:trigger seen[i]} :: 0 <= i < |seen| ==> seen[i] <= log
    ensures Longest(seen) <= |log|
    ensures Drained(seen) == Sent(Keys(log[..Longest(seen)]), Bodies(log[..Longest(seen)]))
  {
    if seen == [] {
      assert Keys(log[..0]) == {};
    } else {
      var before, last := seen[..|seen| - 1], seen[|seen| - 1];
      FollowsTheLog(log, before);
      assert last == log[..|last|];
      DrainPrefix(log, Longest(before), |last|);
    }
  }

  // ----- getRunLogsText ---------------------------------------------------------------

  /** s without its first n elements, or nothing when it is shorter. */
  function Drop(s: bytes, n: nat): bytes {
    if n <= |s| then s[n..] else []
  }

  /** The response body, written chunk by chunk after the bytes the client already has. */
  class TextResponse {
    var skip: nat
    var wroteHeader: bool
    var body: bytes

    constructor (offset: nat)
      ensures skip == offset && body == [] && !wroteHeader
    {
      skip, body, wroteHeader := offset, [], false;
    }

    ghost predicate Skipping(offset: nat, seen: bytes)
      reads this
    {
      && skip == (if offset <= |seen| then 0 else offset - |seen|)
      && body == Drop(seen, offset)
      && (body != [] ==> wroteHeader)
    }

    method Emit(chunk: bytes, ghost offset: nat, ghost seen: bytes)
      requires Skipping(offset, seen)
      modifies this
      ensures Skipping(offset, seen + chunk)
    {
      var c := chunk;
      if skip > 0 {
        var n := Min(skip, |c|);
        c, skip := c[n..], skip - n;
        if |c| == 0 {
          return;
        }
      }
      wroteHeader := true;
      assert Drop(seen + chunk, offset) == Drop(seen, offset) + c;
      body := body + c;
    }
  }

  /** Skipping an offset across chunks is dropping it from the whole. */
  method LogsText(chunks: seq<bytes>, offset: nat) returns (body: bytes)
    ensures body == Drop(Flatten(chunks), offset)
    ensures var all := Flatten(chunks); if offset < |all| then body == all[offset..] else body == []
  {
    var w := new TextResponse(offset);
    for i := 0 to |chunks|
      invariant w.Skipping(offset, Flatten(chunks[..i]))
      invariant fresh(w)
    {
      w.Emit(chunks[i], offset, Flatten(chunks[..i]));
      FlattenSnoc(chunks[..i], chunks[i]);
      assert chunks[..i + 1] == chunks[..i] + [chunks[i]];
    }
    assert chunks[..|chunks|] == chunks;
    return w.body;
  }

  // ----- followLogs -------------------------------------------------------------------

  /** One request for the rest of the log: whether it opened, what was stored, how much arrived. */
  datatype Response = Response(open: bool, stored: nat, arrived: nat)

  /** One iteration: whether the run was seen terminal, and its one or two requests. */
  datatype Poll = Poll(terminal: bool, first: Response, rest: Response)

  ghost predicate Honest(log: seq<Chunk>, r: Response) {
    r.stored <= |log|
  }

  class Follower {
    var offset: nat
    var printed: bytes

    constructor ()
      ensures offset == 0 && printed == []
    {
      offset, printed := 0, [];
    }

    /** Everything printed is the beginning of the log, and offset counts it. */
    ghost predicate OnTrack(log: seq<Chunk>)
      reads this
    {
      offset == |printed| && printed <= Text(log, |log|)
    }

    /** Asks for what is missing and prints what arrives of it, however little. */
    method DrainLog(log: seq<Chunk>, r: Response)
      requires OnTrack(log) && Honest(log, r)
      modifies this
      ensures OnTrack(log) && old(printed) <= printed
      ensures r.open && r.arrived >= |Text(log, r.stored)| ==> Text(log, r.stored) <= printed
    {
      if !r.open {
        return;
      }
      var body := LogsText(Bodies(log[..r.stored]), offset);
      var n := Min(r.arrived, |body|);
      TextGrows(log, r.stored, |log|);
      DropThenTake(printed, Text(log, r.stored), Text(log, |log|), n);
      printed := printed + body[..n];
      offset := offset + n;
    }

    /** Follows the run until it is over; polls running out is the user giving up. */
    method Follow(log: seq<Chunk>, polls: seq<Poll>) returns (finished: bool, ghost last: nat)
      requires OnTrack(log)
      requires forall p :: p in polls ==> Honest(log, p.first) && Honest(log, p.rest)
      modifies this
      ensures OnTrack(log) && old(printed) <= printed
      ensures finished ==> last < |polls| && polls[last].terminal && Honest(log, polls[last].rest)
      ensures finished && polls[last].rest.open && polls[last].rest.arrived >= |Text(log, polls[last].rest.stored)| ==>
                Text(log, polls[last].rest.stored) <= printed
    {
      last := 0;
      for i := 0 to |polls|
        invariant OnTrack(log) && old(printed) <= printed
      {
        DrainLog(log, polls[i].first);
        if polls[i].terminal {
          DrainLog(log, polls[i].rest);
          return true, i;
        }
      }
      return false, last;
    }
  }

  /** Printing any part of what is missing keeps what is printed a prefix. */
  lemma DropThenTake(printed: bytes, stored: bytes, all: bytes, n: nat)
    requires printed <= all && stored <= all && n <= |Drop(stored, |printed|)|
    ensures printed + Drop(stored, |printed|)[..n] <= all
    ensures n == |Drop(stored, |printed|)| ==> stored <= printed + Drop(stored, |printed|)[..n]
  {}
}
