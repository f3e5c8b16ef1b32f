/** The log tailer itself: chunks of bytes in, published bytes, stored chunks and cursors out. */
module Tailer {
  import opened Bytes
  import opened Ring
  import opened Transducer
  import Fanout
  import Resume
  import opened Replay

  // ----- Subscribers ------------------------------------------------------------------

  /** The subscribers' table, as its lock protects it. */
  class Subscribers {
    const limits: Fanout.Limits
    var subs: map<nat, Fanout.Sub>
    var live: set<nat>
    var dropping: set<nat>
    var leaving: set<nat>
    var ending: set<nat>
    var nextId: nat
    var stopped: bool
    var appended: seq<bytes>  // remembered for the proof: the frames in the ring
    var fanned: nat           // and how many of them were handed out

    function Hub(): Fanout.Hub
      reads this
    {
      Fanout.Hub(appended, fanned, subs, live, dropping, leaving, ending, nextId, stopped)
    }

    constructor (limits: Fanout.Limits)
      ensures Hub() == Fanout.EMPTY && this.limits == limits
    {
      this.limits := limits;
      subs, live, dropping, leaving, ending := map[], {}, {}, {}, {};
      nextId, stopped, appended, fanned := 0, false, [], 0;
    }

    /** The frame a new subscriber starts with: the ring, unless it is empty. */
    method FirstFrames(ring: RingBuffer) returns (queue: seq<Fanout.Frame>)
      requires ring.Valid() && ring.history == Flatten(appended) && ring.capacity == limits.ringBytes
      ensures queue == Fanout.Snapshot(limits, appended)
    {
      var snap, _, lost := ring.Snapshot();
      return if |snap| > 0 then [Fanout.Frame(snap, lost)] else [];
    }

    /** Under the lock: the ring's snapshot and the registration. */
    method Subscribe(ring: RingBuffer) returns (id: nat)
      requires ring.Valid() && ring.history == Flatten(appended) && ring.capacity == limits.ringBytes
      modifies this
      ensures Hub() == Fanout.Subscribe(limits, old(Hub())) && id == old(nextId)
    {
      var queue := FirstFrames(ring);
      id := nextId;
      nextId := nextId + 1;
      if stopped {
        subs := subs[id := Fanout.Sub([], [], [Fanout.Eof], |appended|, |appended|, |appended|)];
        return;
      }
      subs := subs[id := Fanout.Sub(queue, [], [], |appended|, fanned, fanned)];
      live := live + {id};
    }

    /** Under the lock the subscription is taken out; after it the channel is closed, if it was there. */
    method Unsubscribe(id: nat)
      requires live <= subs.Keys
      modifies this
      ensures Hub() == Fanout.Unsubscribe(old(Hub()), id)
    {
      if id in live {
        live := live - {id};
        CloseAll({id}, Fanout.Unsubscribed);
      }
    }

    method CloseAll(ids: set<nat>, r: Fanout.Reason)
      requires ids <= subs.Keys
      modifies this`subs
      ensures subs == Fanout.ClosedAll(old(subs), ids, r)
    {
      var todo, closed := ids, subs;
      while todo != {}
        invariant todo <= ids && closed.Keys == subs.Keys
        invariant forall id {:trigger closed[id]} :: id in subs ==>
          closed[id] == if id in ids - todo then subs[id].(closes := subs[id].closes + [r]) else subs[id]
      {
        var id :| id in todo;
        todo := todo - {id};
        closed := closed[id := closed[id].(closes := closed[id].closes + [r])];
      }
      subs := closed;
    }

    /** Every registered subscriber is offered the frame; those without room are counted out. */
    method OfferAll(frame: bytes) returns (offered: map<nat, Fanout.Sub>, full: set<nat>)
      requires live <= subs.Keys
      ensures offered == map id | id in subs :: if id in live then Fanout.Offer(limits, subs[id], frame) else subs[id]
      ensures full == set id | id in live && !Fanout.HasRoom(limits, subs[id])
    {
      var todo := live;
      offered, full := subs, {};
      while todo != {}
        invariant todo <= live && offered.Keys == subs.Keys
        invariant full == set id | id in live - todo && !Fanout.HasRoom(limits, subs[id])
        invariant forall id {:trigger offered[id]} :: id in subs ==>
          offered[id] == if id in live - todo then Fanout.Offer(limits, subs[id], frame) else subs[id]
      {
        var id :| id in todo;
        todo := todo - {id};
        if |offered[id].queue| < limits.queueLen {
          offered := offered[id := Fanout.Offer(limits, offered[id], frame)];
        } else {
          full := full + {id};
        }
      }
    }

    /** Hands the next frame to every registered subscriber that has room, and drops the rest. */
    method FanOut()
      requires fanned < |appended| && live <= subs.Keys
      modifies this
      ensures Hub() == Fanout.FanOut(limits, old(Hub()))
    {
      var offered, full := OfferAll(appended[fanned]);
      subs, live, dropping, fanned := offered, live - full, dropping + full, fanned + 1;
    }

    /** After the lock was released, the subscriptions that had no room are closed. */
    method CloseDropped()
      requires dropping <= subs.Keys
      modifies this
      ensures Hub() == Fanout.DroppedClosed(old(Hub()))
    {
      CloseAll(dropping, Fanout.Overflow);
      dropping := {};
    }

    /** The end of the log: nobody is registered any more, nobody will be, and all are closed. */
    method Finish()
      requires live <= subs.Keys
      modifies this
      ensures Hub() == Fanout.Ended(old(Hub()))
    {
      stopped, ending, live := true, live, {};
      CloseAll(ending, Fanout.Eof);
      ending := {};
    }
  }

  // ----- Object storage ---------------------------------------------------------------

  /** A run's log chunks and cursor, as object storage keeps them. */
  class LogStore {
    var chunks: map<nat, bytes>
    var cursor: Option<Resume.Cursor>

    constructor ()
      ensures chunks == map[] && cursor == None
    {
      chunks, cursor := map[], None;
    }

    /** A Put that fails leaves what was there. */
    method PutChunk(n: nat, body: bytes, ok: bool)
      modifies this`chunks
      ensures chunks == if ok then old(chunks)[n := body] else old(chunks)
    {
      if ok {
        chunks := chunks[n := body];
      }
    }

    method PutCursor(c: Resume.Cursor, ok: bool)
      modifies this`cursor
      ensures cursor == if ok then Some(c) else old(cursor)
    {
      if ok {
        cursor := Some(c);
      }
    }

    method RemoveChunks(ok: bool)
      modifies this`chunks
      ensures chunks == if ok then map[] else old(chunks)
    {
      if ok {
        chunks := map[];
      }
    }
  }

  // ----- The tailer -------------------------------------------------------------------

  datatype State = TailerState(scan: Transducer.Scan, pending: bytes, chunkSeq: nat, store: Resume.Store)

  /** After a flush whose Puts succeed. */
  function Flushed(s: State): State {
    if s.pending == [] then s
    else TailerState(s.scan, [], s.chunkSeq + 1,
                     Resume.Store(s.store.chunks[s.chunkSeq := s.pending],
                                  if s.scan.pos.last != ZERO_TIME then Some(Resume.Cursor(s.chunkSeq + 1, s.scan.pos))
                                  else s.store.cursor))
  }

  /** After data was consumed. */
  function Consumed(parse: Parser, s: State, data: bytes): State {
    var fed := Feed(parse, s.scan, data);
    s.(scan := fed.scan, pending := s.pending + fed.out)
  }

  /** After data from the pump was handled, where Puts succeed. */
  function Handled(parse: Parser, chunkBytes: nat, s: State, data: bytes): State {
    var c := Consumed(parse, s, data);
    if |c.pending| >= chunkBytes then Flushed(c) else c
  }

  class Tailer {
    const parse: Parser
    const store: LogStore
    const ring: RingBuffer
    const subscribers: Subscribers
    const chunkBytes: nat
    const reopenMaxAttempts: nat

    var line: LineState
    var hdr: bytes
    var pos: Position
    var filter: Filter
    var pending: bytes
    var chunkSeq: nat

    ghost function Scan(): Transducer.Scan
      reads this
    {
      Transducer.Scan(line, hdr, pos, filter)
    }

    /** The tailer and its store, as the model of crashes and restarts has them. */
    ghost function State(): State
      reads this, store
    {
      TailerState(Scan(), pending, chunkSeq, Resume.Store(store.chunks, store.cursor))
    }

    ghost predicate Valid()
      reads this, ring, ring.buf, subscribers
    {
      && Scan().Valid()
      && ring.Valid() && ring.capacity == subscribers.limits.ringBytes
      && ring.history == Flatten(subscribers.appended)
      && Fanout.Idle(subscribers.Hub()) && !subscribers.stopped
      && subscribers.live <= subscribers.subs.Keys
    }

    /** The subscribers after a frame was published. */
    ghost function Told(data: bytes): Fanout.Hub
      requires Valid()
      reads this, ring, ring.buf, subscribers
    {
      Fanout.Published(subscribers.limits, subscribers.Hub(), data)
    }

    /** What the run loop's steps may change. */
    ghost function Parts(): set<object>
      reads this
    {
      {this, ring, ring.buf, subscribers}
    }

    /** Everything published so far, in order. */
    ghost function Output(): bytes
      reads this, ring
    {
      ring.history
    }

    /** A tailer continues where a cursor says, or starts fresh. */
    constructor (parse: Parser, store: LogStore, resume: Option<Resume.Cursor>, ringBytes: nat, chunkBytes: nat,
                 queueLen: nat, reopenMaxAttempts: nat)
      requires ringBytes >= 1 && queueLen >= 1
      ensures Valid() && this.store == store && this.parse == parse
      ensures fresh(ring) && fresh(ring.buf) && fresh(subscribers)
      ensures Output() == [] && pending == []
      ensures chunkSeq == (if resume.Some? then resume.value.nextSeq else 0)
      ensures pos == if resume.Some? then resume.value.pos else START
    {
      this.parse, this.store := parse, store;
      this.chunkBytes, this.reopenMaxAttempts := chunkBytes, reopenMaxAttempts;
      ring := new RingBuffer(ringBytes);
      subscribers := new Subscribers(Fanout.Limits(ringBytes, queueLen));
      line, hdr, pending := Header, [], [];
      pos, chunkSeq, filter := START, 0, Filter(START, 0);
      new;
      if resume.Some? {
        chunkSeq, pos := resume.value.nextSeq, resume.value.pos;
      }
    }

    // ----- position.go ----------------------------------------------------------------

    /** Records a published line. */
    method Advance(ts: Time)
      modifies this`pos
      ensures pos == old(pos).Advance(ts)
    {
      if ts == pos.last {
        pos := Position(pos.last, pos.atLast + 1);
        return;
      }
      pos := Position(ts, 1);
    }

    /** Whether a line is new on this connection; lines at the position's timestamp are counted. */
    method KeepLine(ts: Time) returns (keep: bool)
      modifies this`filter
      ensures keep == old(filter).Keeps(ts) && filter == old(filter).Saw(ts)
    {
      if ts < filter.upTo.last {
        return false;
      }
      if ts == filter.upTo.last {
        filter := Filter(filter.upTo, filter.seen + 1);
        return filter.seen > filter.upTo.atLast;
      }
      return true;
    }

    // ----- consume --------------------------------------------------------------------

    /** One byte of a line start. If it cannot belong to a timestamp, the line is content from its start on. */
    method HeaderByte(c: byte) returns (taken: bool, out: bytes)
      requires line == Header && Scan().Valid()
      modifies this`line, this`hdr, this`pos, this`filter
      ensures Scan().Valid()
      ensures taken ==> Fed(Scan(), out) == Step(parse, old(Scan()), c) && out == []
      ensures !taken ==>
        && Scan() == old(Scan()).(hdr := [], line := Keep) && out == old(hdr)
        && !EndsStamp(parse, old(Scan()), c) && !(IsTimestampByte(c) && |old(hdr)| < MAX_TIMESTAMP_LEN)
    {
      if c == SPACE && |hdr| > 0 {
        var ts := parse(hdr);
        if ts.Some? {
          hdr, line := [], Drop;
          var keep := KeepLine(ts.value);
          if keep {
            Advance(ts.value);
            line := Keep;
          }
          return true, [];
        }
      }
      if IsTimestampByte(c) && |hdr| < MAX_TIMESTAMP_LEN {
        hdr := hdr + [c];
        return true, [];
      }
      out, hdr, line := hdr, [], Keep;
      return false, out;
    }

    /** The rest of the current line, as far as data has it. */
    method RestOfLine(data: bytes) returns (end: nat, out: bytes)
      requires line != Header && data != [] && hdr == []
      modifies this`line
      ensures 1 <= end <= |data| && hdr == []
      ensures var after := Feed(parse, Scan(), data[end..]);
              Feed(parse, old(Scan()), data) == Fed(after.scan, out + after.out)
    {
      var eol;
      end, eol := IndexAfterNewline(data);
      SegmentFeeds(parse, Scan(), data, end, eol);
      out := if line == Keep then data[..end] else [];
      if eol {
        line := Header;
      }
    }

    /** Publishes what is new in a chunk: exactly what feeding it byte by byte would. */
    method Consume(data: bytes)
      requires Valid()
      modifies Parts()
      ensures Valid()
      ensures var fed := Feed(parse, old(Scan()), data);
              && Scan() == fed.scan
              && Output() == old(Output()) + fed.out
              && pending == old(pending) + fed.out
              && subscribers.Hub() == old(Told(fed.out))
      ensures chunkSeq == old(chunkSeq)
    {
      var rest, out := data, [];
      ghost var goal := Feed(parse, Scan(), data);
      while rest != []
        invariant Scan().Valid()
        invariant var left := Feed(parse, Scan(), rest);
                  goal == Fed(left.scan, out + left.out)
        invariant unchanged(`pending) && unchanged(`chunkSeq)
        modifies this`line, this`hdr, this`pos, this`filter
        decreases |rest|
      {
        if line == Header {
          ghost var s := Scan();
          var taken, before := HeaderByte(rest[0]);
          if taken {
            ConcatEmpty(Feed(parse, Scan(), rest[1..]).out);
            rest := rest[1..];
            continue;
          }
          PassThrough(parse, s, rest);
          ConcatAssoc(out, before, Feed(parse, Scan(), rest).out);
          out := out + before;
        }
        var end, more := RestOfLine(rest);
        ConcatAssoc(out, more, Feed(parse, Scan(), rest[end..]).out);
        out, rest := out + more, rest[end..];
      }
      ConcatEmpty(out);
      Publish(out);
    }

    /** Into the ring and the pending chunk first, then out to the subscribers. */
    method Publish(data: bytes)
      requires Valid()
      modifies this`pending, ring, ring.buf, subscribers
      ensures Valid()
      ensures Output() == old(Output()) + data && pending == old(pending) + data
      ensures subscribers.Hub() == old(Told(data))
    {
      if |data| == 0 {
        ConcatEmpty(pending);
        ConcatEmpty(Output());
        return;
      }
      FlattenSnoc(subscribers.appended, data);
      var _ := ring.Append(data);
      pending := pending + data;
      subscribers.appended := subscribers.appended + [data];
      subscribers.FanOut();
      subscribers.CloseDropped();
    }

    /** A line start still held when the stream ends is published as it is. */
    method FlushPartialLine()
      requires Valid()
      modifies Parts()
      ensures Valid() && hdr == []
      ensures Output() == old(Output()) + old(hdr) && pending == old(pending) + old(hdr)
      ensures subscribers.Hub() == old(Told(hdr))
      ensures pos == old(pos) && chunkSeq == old(chunkSeq)
    {
      var held := hdr;
      hdr := [];
      Publish(held);
    }

    // ----- Chunks and cursor ----------------------------------------------------------

    /**
     Stores what is pending as the next chunk and, if that worked, a cursor for it. A chunk
     that cannot be stored is given up, number and all.
     */
    method FlushPending(chunkOk: bool, cursorOk: bool)
      modifies this`pending, this`chunkSeq, store
      ensures old(pending) == [] ==> unchanged(this) && unchanged(store)
      ensures old(pending) != [] ==>
        && pending == [] && chunkSeq == old(chunkSeq) + 1
        && store.chunks == (if chunkOk then old(store.chunks)[old(chunkSeq) := old(pending)] else old(store.chunks))
        && store.cursor == (if chunkOk && cursorOk && pos.last != ZERO_TIME
                            then Some(Resume.Cursor(chunkSeq, pos)) else old(store.cursor))
      ensures chunkOk && cursorOk ==> State() == Flushed(old(State()))
    {
      if |pending| == 0 {
        return;
      }
      store.PutChunk(chunkSeq, pending, chunkOk);
      chunkSeq, pending := chunkSeq + 1, [];
      if chunkOk {
        SaveCursor(cursorOk);
      }
    }

    /** Without a timestamped line there is no position to resume from, and no cursor. */
    method SaveCursor(ok: bool)
      modifies store`cursor
      ensures store.cursor == if ok && pos.last != ZERO_TIME then Some(Resume.Cursor(chunkSeq, pos)) else old(store.cursor)
    {
      if pos.last == ZERO_TIME {
        return;
      }
      store.PutCursor(Resume.Cursor(chunkSeq, pos), ok);
    }

    // ----- The run loop's steps -------------------------------------------------------

    /**
     Opens the stream at the position, trying until an attempt succeeds or the budget is
     spent. opens says which attempts succeed; running out of it is cancellation. Whatever
     was held of a line start is forgotten, and lines up to the position will be dropped.
     */
    method StartPump(opens: seq<bool>, failures: nat) returns (ok: bool, failed: nat, since: Option<Time>)
      requires Valid()
      modifies this`line, this`hdr, this`filter
      ensures Valid()
      ensures opens != [] ==> Scan() == AtOpen(old(pos))
      ensures since == if pos.last == ZERO_TIME then None else Some(pos.last)
      ensures failures <= failed <= failures + |opens|
      ensures ok ==> failed - failures < |opens| && opens[failed - failures] && forall i :: 0 <= i < failed - failures ==> !opens[i]
      ensures ok && failed > failures ==> failed < reopenMaxAttempts
      ensures !ok ==> failed >= reopenMaxAttempts || forall i :: 0 <= i < |opens| ==> !opens[i]
    {
      failed := failures;
      since := if pos.last == ZERO_TIME then None else Some(pos.last);
      for i := 0 to |opens|
        invariant failed == failures + i
        invariant i > 0 ==> Scan() == AtOpen(pos) && failed < reopenMaxAttempts
        invariant forall k :: 0 <= k < i ==> !opens[k]
        invariant Valid()
      {
        filter, line, hdr := Filter(pos, 0), Header, [];
        if opens[i] {
          return true, failed, since;
        }
        failed := failed + 1;
        if failed >= reopenMaxAttempts {
          return false, failed, since;
        }
      }
      return false, failed, since;
    }

    /** Data from the pump: published, and flushed once a chunk's worth is pending. */
    method HandleData(data: bytes, chunkOk: bool, cursorOk: bool)
      requires Valid()
      modifies Parts(), store
      ensures Valid()
      ensures var fed := Feed(parse, old(Scan()), data);
              && Scan() == fed.scan && Output() == old(Output()) + fed.out
              && subscribers.Hub() == old(Told(fed.out))
              && var held := old(pending) + fed.out;
              if held != [] && |held| >= chunkBytes then
                && pending == [] && chunkSeq == old(chunkSeq) + 1
                && store.chunks == (if chunkOk then old(store.chunks)[old(chunkSeq) := held] else old(store.chunks))
                && store.cursor == (if chunkOk && cursorOk && pos.last != ZERO_TIME
                                    then Some(Resume.Cursor(chunkSeq, pos)) else old(store.cursor))
              else pending == held && chunkSeq == old(chunkSeq) && unchanged(store)
      ensures chunkOk && cursorOk ==> State() == Handled(parse, chunkBytes, old(State()), data)
    {
      Consume(data);
      if |pending| >= chunkBytes {
        FlushPending(chunkOk, cursorOk);
      }
    }

    /** The last flush, and the end of every subscription. */
    method Finalize(chunkOk: bool, cursorOk: bool)
      requires Valid()
      modifies this`pending, this`chunkSeq, store, subscribers
      ensures pending == []
      ensures old(pending) != [] ==>
        && chunkSeq == old(chunkSeq) + 1
        && store.chunks == (if chunkOk then old(store.chunks)[old(chunkSeq) := old(pending)] else old(store.chunks))
        && store.cursor == (if chunkOk && cursorOk && pos.last != ZERO_TIME
                            then Some(Resume.Cursor(chunkSeq, pos)) else old(store.cursor))
      ensures old(pending) == [] ==> unchanged(store) && unchanged(this)
      ensures subscribers.Hub() == Fanout.Ended(old(subscribers.Hub()))
    {
      FlushPending(chunkOk, cursorOk);
      subscribers.Finish();
    }
  }

  /** Where the line that data starts with ends, if it does. */
  method IndexAfterNewline(data: bytes) returns (end: nat, eol: bool)
    requires data != []
    ensures 1 <= end <= |data|
    ensures eol ==> data[end - 1] == NEWLINE && NEWLINE !in data[..end - 1]
    ensures !eol ==> end == |data| && NEWLINE !in data
  {
    for i := 0 to |data|
      invariant NEWLINE !in data[..i]
    {
      if data[i] == NEWLINE {
        return i + 1, true;
      }
    }
    return |data|, false;
  }

  /** A line start that turns out not to be a timestamp is content like the rest of its line. */
  lemma PassThrough(parse: Parser, s: Transducer.Scan, data: bytes)
    requires s.line == Header && data != []
    requires !EndsStamp(parse, s, data[0])
    requires !(IsTimestampByte(data[0]) && |s.hdr| < MAX_TIMESTAMP_LEN)
    ensures var plain := Feed(parse, s.(hdr := [], line := Keep), data);
            Feed(parse, s, data) == Fed(plain.scan, s.hdr + plain.out)
  {
    var rest := Feed(parse, s.(hdr := [], line := if data[0] == NEWLINE then Header else Keep), data[1..]);
    ConcatAssoc(s.hdr, [data[0]], rest.out);
  }

  /** Inside a line, everything up to its end is kept or dropped at once. */
  lemma SegmentFeeds(parse: Parser, s: Transducer.Scan, data: bytes, end: nat, eol: bool)
    requires s.line != Header && 1 <= end <= |data|
    requires eol ==> data[end - 1] == NEWLINE && NEWLINE !in data[..end - 1]
    requires !eol ==> end == |data| && NEWLINE !in data
    ensures var after := Feed(parse, if eol then s.(line := Header) else s, data[end..]);
            Feed(parse, s, data) == Fed(after.scan, (if s.line == Keep then data[..end] else []) + after.out)
  {
    assert data == data[..end] + data[end..];
    ChunkingIndependence(parse, s, data[..end], data[end..]);
    if eol {
      assert data[..end] == data[..end - 1] + [NEWLINE];
      FeedBody(parse, s, data[..end - 1]);
    } else {
      assert data[..end] == data;
      FeedContent(parse, s, data);
    }
  }

  // ----- The tailer's steps are those of the model of crashes and restarts ------------

  /** The world's tailer is in this state, between two of its steps. */
  predicate IsAt(w: Resume.World, s: State) {
    && w.tailer.Some? && !w.tailer.value.cursorDue && w.store == s.store
    && w.tailer.value.scan == s.scan && w.tailer.value.pending == s.pending && w.tailer.value.chunkSeq == s.chunkSeq
  }

  /** The state of a tailer that was made for a cursor, and has opened its stream. */
  function Begun(store: Resume.Store): State {
    match store.cursor
    case Some(c) => TailerState(AtOpen(c.pos), [], c.nextSeq, store)
    case None => TailerState(AtOpen(START), [], 0, Resume.Store(map[], None))
  }

  /** Making a tailer, with the chunks wiped if there is no cursor, and opening its stream is a start. */
  lemma BeginIsAStep(parse: Parser, log: Log, w: Resume.World, from: nat) returns (w': Resume.World)
    requires w.tailer.None?
    requires Opens(log, Begun(w.store).scan.pos, Connection(from, 0))
    ensures Resume.Next(parse, log, w, Resume.Start(from), w') && IsAt(w', Begun(w.store))
  {
    var s := Begun(w.store);
    var t := Some(Resume.Opened(s.scan.pos, s.chunkSeq, from, []));
    match w.store.cursor
    case Some(_) =>
      w' := Resume.World(s.store, t, w.hist.(base := w.hist.saved, cuts := w.hist.cuts + Resume.LastLine(log, w.hist.saved)));
    case None =>
      w' := Resume.World(s.store, t, w.hist.(base := [], stored := [], top := 0, cuts := {}));
  }

  /** Opening the stream again is a reopening. */
  lemma ReopenIsAStep(parse: Parser, log: Log, w: Resume.World, s: State, from: nat) returns (w': Resume.World)
    requires Resume.Inv(parse, log, w) && IsAt(w, s) && Opens(log, s.scan.pos, Connection(from, 0))
    ensures Resume.Next(parse, log, w, Resume.Reopen(from), w')
    ensures IsAt(w', s.(scan := AtOpen(s.scan.pos)))
  {
    w' := Resume.World(w.store, Some(Resume.Opened(s.scan.pos, s.chunkSeq, from, s.pending)),
                       w.hist.(base := Resume.Now(log, w), cuts := w.hist.cuts + Resume.LastLine(log, Resume.Now(log, w))));
  }

  /** A flush of something is a chunk's Put and then its cursor's. */
  lemma FlushIsTwoSteps(parse: Parser, log: Log, w: Resume.World, s: State) returns (between: Resume.World, w': Resume.World)
    requires Resume.Inv(parse, log, w) && IsAt(w, s) && s.pending != []
    ensures Resume.Next(parse, log, w, Resume.PutChunk, between)
    ensures Resume.Next(parse, log, between, Resume.PutCursor, w') && IsAt(w', Flushed(s))
  {
    var t := w.tailer.value;
    var now := Resume.Now(log, w);
    between := Resume.World(w.store.(chunks := w.store.chunks[t.chunkSeq := t.pending]),
                            Some(t.(pending := [], chunkSeq := t.chunkSeq + 1, cursorDue := true)),
                            w.hist.(stored := now, top := t.chunkSeq + 1));
    var done := between.tailer.value.(cursorDue := false);
    w' := if t.scan.pos.last == ZERO_TIME then between.(tailer := Some(done))
          else Resume.World(Flushed(s).store, Some(done), between.hist.(saved := now));
  }

  /** Handling the next bytes of the stream is receiving them and, with a chunk's worth pending, those two. */
  lemma HandleIsSteps(parse: Parser, log: Log, chunkBytes: nat, w: Resume.World, s: State, data: bytes)
    returns (received: Resume.World, between: Resume.World, w': Resume.World)
    requires IsLog(parse, log) && Resume.Inv(parse, log, w) && IsAt(w, s)
    requires var c := w.tailer.value.conn;
             && c.from <= |log| && c.read + |data| <= |Stream(log, c.from)|
             && Resume.Got(log, Connection(c.from, c.read + |data|)) == Resume.Got(log, c) + data
    ensures Resume.Next(parse, log, w, Resume.Receive(data), received) && IsAt(received, Consumed(parse, s, data))
    ensures var pending := Consumed(parse, s, data).pending;
            if pending != [] && |pending| >= chunkBytes then
              && Resume.Next(parse, log, received, Resume.PutChunk, between)
              && Resume.Next(parse, log, between, Resume.PutCursor, w')
            else w' == received
    ensures IsAt(w', Handled(parse, chunkBytes, s, data))
  {
    var t := w.tailer.value;
    var fed := Feed(parse, t.scan, data);
    received := w.(tailer := Some(t.(scan := fed.scan, pending := t.pending + fed.out,
                                     conn := Connection(t.conn.from, t.conn.read + |data|))));
    between, w' := received, received;
    var c := Consumed(parse, s, data);
    if c.pending != [] && |c.pending| >= chunkBytes {
      Resume.ReceiveKeeps(parse, log, w, data, received);
      between, w' := FlushIsTwoSteps(parse, log, received, c);
    }
  }
}
