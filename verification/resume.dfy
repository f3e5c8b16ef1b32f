/**
 A log tailer, its object store and crashes: chunks are put first and the cursor that
 counts them second, a crash may come between the two, and a restarted tailer resumes
 from the cursor or, without one, wipes the chunks and starts over.
 */
module Resume {
  import opened Bytes
  import opened Transducer
  import opened Replay

  /** What is persisted after each stored chunk: the next chunk's number and the position. */
  datatype Cursor = Cursor(nextSeq: nat, pos: Position)

  datatype Store = Store(chunks: map<nat, bytes>, cursor: Option<Cursor>)

  /**
   The running tailer: pending is published but not yet stored; cursorDue holds between a
   chunk's Put and its cursor's.
   */
  datatype Tailing = Tailing(scan: Scan, pending: bytes, chunkSeq: nat, cursorDue: bool, conn: Connection)

  /**
   What a proof remembers besides: the progress when the stream was opened, the progress
   the cursor and the chunks stand for, how many chunks there are, and the lines that were
   being published when a stream or a tailer ended.
   */
  datatype History = History(base: Progress, saved: Progress, stored: Progress, top: nat, cuts: set<nat>)

  datatype World = World(store: Store, tailer: Option<Tailing>, hist: History)

  datatype Event =
    | Start(from: nat)      // an operator starts a tailer
    | Receive(data: bytes)  // the next bytes of the stream are consumed
    | Reopen(from: nat)     // the stream broke and was opened again
    | PutChunk
    | PutCursor
    | Crash

  /** The chunks below n, in key order. */
  function Concat(chunks: map<nat, bytes>, n: nat): bytes {
    if n == 0 then [] else Concat(chunks, n - 1) + if n - 1 in chunks then chunks[n - 1] else []
  }

  /** The last line, if it was left short. */
  function LastLine(log: Log, lens: Progress): set<nat> {
    if 0 < |lens| <= |log| && lens[|lens| - 1] < |log[|lens| - 1].Body()| then {|lens| - 1} else {}
  }

  /** How far the tailer has published. */
  ghost function Now(log: Log, w: World): (r: Progress)
    requires w.tailer.Some? && IsProgress(log, w.hist.base)
    requires w.tailer.value.conn.from <= |w.hist.base|
    ensures IsProgress(log, r)
  {
    Read(log, w.hist.base, w.tailer.value.conn.from, w.tailer.value.conn.read)
  }

  // ----- Steps ------------------------------------------------------------------------

  function Opened(pos: Position, chunkSeq: nat, from: nat, pending: bytes): Tailing {
    Tailing(AtOpen(pos), pending, chunkSeq, false, Connection(from, 0))
  }

  /** The bytes read on a connection. */
  function Got(log: Log, c: Connection): bytes
    requires c.from <= |log| && c.read <= |Stream(log, c.from)|
  {
    Stream(log, c.from)[..c.read]
  }

  ghost predicate Next(parse: Parser, log: Log, w: World, e: Event, w': World) {
    match e
    case Start(from) =>
      && w.tailer.None?
      && (match w.store.cursor
          case Some(c) =>
            && Opens(log, c.pos, Connection(from, 0))
            && w' == World(w.store, Some(Opened(c.pos, c.nextSeq, from, [])),
                           w.hist.(base := w.hist.saved, cuts := w.hist.cuts + LastLine(log, w.hist.saved)))
          case None =>
            && Opens(log, START, Connection(from, 0))
            && w' == World(Store(map[], None), Some(Opened(START, 0, from, [])),
                           w.hist.(base := [], stored := [], top := 0, cuts := {})))
    case Receive(data) =>
      && w.tailer.Some? && !w.tailer.value.cursorDue
      && var t := w.tailer.value;
      && var conn := Connection(t.conn.from, t.conn.read + |data|);
      && conn.from <= |log| && conn.read <= |Stream(log, conn.from)|
      && Got(log, conn) == Got(log, t.conn) + data
      && var fed := Feed(parse, t.scan, data);
      && w' == w.(tailer := Some(t.(scan := fed.scan, pending := t.pending + fed.out, conn := conn)))
    case Reopen(from) =>
      && w.tailer.Some? && !w.tailer.value.cursorDue
      && var t := w.tailer.value;
      && Opens(log, t.scan.pos, Connection(from, 0))
      && IsProgress(log, w.hist.base) && t.conn.from <= |w.hist.base|
      && w' == World(w.store, Some(Opened(t.scan.pos, t.chunkSeq, from, t.pending)),
                     w.hist.(base := Now(log, w), cuts := w.hist.cuts + LastLine(log, Now(log, w))))
    case PutChunk =>
      && w.tailer.Some? && !w.tailer.value.cursorDue && w.tailer.value.pending != []
      && var t := w.tailer.value;
      && IsProgress(log, w.hist.base) && t.conn.from <= |w.hist.base|
      && w' == World(w.store.(chunks := w.store.chunks[t.chunkSeq := t.pending]),
                     Some(t.(pending := [], chunkSeq := t.chunkSeq + 1, cursorDue := true)),
                     w.hist.(stored := Now(log, w), top := t.chunkSeq + 1))
    case PutCursor =>
      && w.tailer.Some? && w.tailer.value.cursorDue
      && var t := w.tailer.value;
      && IsProgress(log, w.hist.base) && t.conn.from <= |w.hist.base|
      && if t.scan.pos.last == ZERO_TIME then w' == w.(tailer := Some(t.(cursorDue := false)))
         else w' == World(w.store.(cursor := Some(Cursor(t.chunkSeq, t.scan.pos))),
                          Some(t.(cursorDue := false)),
                          w.hist.(saved := Now(log, w)))
    case Crash => w.tailer.Some? && w' == w.(tailer := None)
  }

  const EMPTY := World(Store(map[], None), None, History([], [], [], 0, {}))

  // ----- Invariant --------------------------------------------------------------------

  /** Lines are short only where a stream or a tailer ended, or at the very end. */
  ghost predicate Ragged(log: Log, lens: Progress, cuts: set<nat>) {
    && IsProgress(log, lens)
    && forall i {:trigger lens[i]} :: 0 <= i < |lens| && lens[i] < |log[i].Body()| ==> i in cuts || i == |lens| - 1
  }

  /** b goes on where a stopped: a's last line may have grown, nothing else changed. */
  ghost predicate Extends(a: Progress, b: Progress) {
    && |a| <= |b|
    && forall i {:trigger b[i]} :: 0 <= i < |a| ==> a[i] <= b[i] && (i < |a| - 1 ==> a[i] == b[i])
  }

  ghost predicate StoreInv(log: Log, s: Store, h: History) {
    && (forall k: nat {:trigger k in s.chunks} :: k in s.chunks <==> k < h.top)
    && Ragged(log, h.stored, h.cuts)
    && Concat(s.chunks, h.top) == Emitted(log, h.stored)
    && (s.cursor.Some? ==> CursorInv(log, s.chunks, s.cursor.value, h))
  }

  /**
   A cursor (n, p): the chunks below n end exactly at position p, chunk n is absent or a
   continuation of them, and nothing lies above it.
   */
  ghost predicate CursorInv(log: Log, chunks: map<nat, bytes>, c: Cursor, h: History) {
    && h.top in {c.nextSeq, c.nextSeq + 1}
    && Ragged(log, h.saved, h.cuts)
    && Extends(h.saved, h.stored)
    && (h.top == c.nextSeq ==> h.saved == h.stored)
    && c.pos == PosOf(log, |h.saved|) && c.pos.last > ZERO_TIME
    && Concat(chunks, c.nextSeq) == Emitted(log, h.saved)
  }

  /** The tailer stands where its stream says, and has stored or still holds the rest. */
  ghost predicate TailerInv(parse: Parser, log: Log, w: World, t: Tailing) {
    var h := w.hist;
    && t.conn.from <= |h.base| && IsProgress(log, h.base)
    && (forall i {:trigger h.base[i]} :: 0 <= i < |h.base| && h.base[i] < |log[i].Body()| ==> i in h.cuts)
    && Opens(log, PosOf(log, |h.base|), t.conn)
    && t.scan == Feed(parse, AtOpen(PosOf(log, |h.base|)), Got(log, t.conn)).scan
    && Concat(w.store.chunks, t.chunkSeq) + t.pending == Emitted(log, Read(log, h.base, t.conn.from, t.conn.read))
    && StoredSoFar(w, t, Read(log, h.base, t.conn.from, t.conn.read))
  }

  ghost predicate StoredSoFar(w: World, t: Tailing, now: Progress) {
    var h, cursor := w.hist, w.store.cursor;
    && t.chunkSeq <= h.top
    && (cursor.Some? ==> Extends(h.saved, now))
    && (if t.cursorDue then
          t.pending == [] && h.top == t.chunkSeq && h.stored == now
          && (cursor.Some? ==> cursor.value.nextSeq + 1 == t.chunkSeq)
        else
          (if cursor.Some? then cursor.value.nextSeq == t.chunkSeq else h.top == t.chunkSeq))
  }

  ghost predicate Inv(parse: Parser, log: Log, w: World) {
    && StoreInv(log, w.store, w.hist)
    && (w.tailer.Some? ==> TailerInv(parse, log, w, w.tailer.value))
  }

  // ----- Facts about progress and chunks ----------------------------------------------

  lemma {:induction false} ConcatFrame(a: map<nat, bytes>, b: map<nat, bytes>, n: nat)
    requires forall k: nat :: k < n ==> (k in a <==> k in b) && (k in a ==> a[k] == b[k])
    ensures Concat(a, n) == Concat(b, n)
  {
    if n > 0 {
      ConcatFrame(a, b, n - 1);
    }
  }

  lemma PrefixExtends(a: Progress, b: Progress)
    requires a <= b
    ensures Extends(a, b)
  {}

  lemma GrownLineExtends(lens: Progress, x: nat, y: nat, after: Progress)
    requires x <= y && lens + [y] <= after
    ensures Extends(lens, after) && Extends(lens + [x], after)
  {
    forall i | 0 <= i < |lens| + 1
      ensures (lens + [x])[i] <= after[i] && (i < |lens| ==> (lens + [x])[i] == after[i])
    {
      assert (lens + [y])[i] == after[i];
    }
    assert lens <= after;
  }

  /** Reading on continues what was read. */
  lemma {:induction false} ReadExtends(log: Log, lens: Progress, j: nat, n: nat, n': nat)
    requires j <= |lens| && IsProgress(log, lens) && n <= n'
    ensures Extends(Read(log, lens, j, n), Read(log, lens, j, n'))
    decreases |log| - j
  {
    if j == |log| || n == 0 {
      ReadShape(log, lens, j, n');
      PrefixExtends(lens, Read(log, lens, j, n'));
    } else if n >= |log[j].Render()| {
      ReadExtends(log, Through(log, lens, j), j + 1, n - |log[j].Render()|, n' - |log[j].Render()|);
    } else if n' >= |log[j].Render()| {
      CutThenWhole(log, lens, j, n, n');
    } else {
      CutThenCut(log, lens, j, n, n');
    }
  }

  lemma CutThenCut(log: Log, lens: Progress, j: nat, n: nat, n': nat)
    requires j <= |lens| && IsProgress(log, lens) && j < |log|
    requires 0 < n <= n' < |log[j].Render()|
    ensures Extends(Read(log, lens, j, n), Read(log, lens, j, n'))
  {
    var after := Read(log, lens, j, n');
    if j == |lens| && n > |log[j].stamp| {
      GrownLineExtends(lens, n - |log[j].stamp| - 1, n' - |log[j].stamp| - 1, after);
    } else {
      PrefixExtends(lens, after);
    }
  }

  lemma CutThenWhole(log: Log, lens: Progress, j: nat, n: nat, n': nat)
    requires j <= |lens| && IsProgress(log, lens) && j < |log|
    requires 0 < n < |log[j].Render()| <= n'
    ensures Extends(Read(log, lens, j, n), Read(log, lens, j, n'))
  {
    var after := Read(log, lens, j, n');
    ReadShape(log, Through(log, lens, j), j + 1, n' - |log[j].Render()|);
    if j < |lens| {
      PrefixExtends(lens, after);
    } else {
      var x := if n <= |log[j].stamp| then 0 else n - |log[j].stamp| - 1;
      GrownLineExtends(lens, x, |log[j].Body()|, after);
    }
  }

  /** What a connection leaves is ragged only where it was before, and at its last line. */
  lemma ReadIsRagged(log: Log, lens: Progress, j: nat, n: nat, cuts: set<nat>)
    requires j <= |lens| && IsProgress(log, lens)
    requires forall i {:trigger lens[i]} :: 0 <= i < |lens| && lens[i] < |log[i].Body()| ==> i in cuts
    ensures Ragged(log, Read(log, lens, j, n), cuts)
  {
    var after := Read(log, lens, j, n);
    ReadShape(log, lens, j, n);
    forall i | 0 <= i < |after| && after[i] < |log[i].Body()| ensures i in cuts || i == |after| - 1 {
      if i < |lens| {
        assert lens[i] == after[i];
      }
    }
  }

  /** Positions never go back. */
  lemma PosGrows(parse: Parser, log: Log, m: nat, n: nat)
    requires IsLog(parse, log) && m <= n <= |log|
    ensures PosOf(log, m).last <= PosOf(log, n).last
  {
    PosMeaning(parse, log, m);
    PosMeaning(parse, log, n);
    if m > 0 {
      assert InOrder(log, m - 1, n - 1);
    }
  }

  // ----- Every step keeps the invariant -----------------------------------------------

  /** Once the line at its end counts as cut, nothing else in a progress is short. */
  lemma CutAtEnd(log: Log, lens: Progress, cuts: set<nat>)
    requires Ragged(log, lens, cuts)
    ensures forall i {:trigger lens[i]} :: 0 <= i < |lens| && lens[i] < |log[i].Body()| ==> i in cuts + LastLine(log, lens)
  {}

  lemma StoreKeeps(log: Log, s: Store, h: History, h': History)
    requires StoreInv(log, s, h)
    requires h' == h.(base := h'.base, cuts := h'.cuts) && h.cuts <= h'.cuts
    ensures StoreInv(log, s, h')
  {}

  /** A stream opened at a position, before anything is read of it. */
  lemma JustOpened(parse: Parser, log: Log, w: World, t: Tailing)
    requires IsLog(parse, log) && IsProgress(log, w.hist.base)
    requires forall i {:trigger w.hist.base[i]} :: 0 <= i < |w.hist.base| && w.hist.base[i] < |log[i].Body()| ==> i in w.hist.cuts
    requires t.conn.read == 0 && Opens(log, PosOf(log, |w.hist.base|), t.conn)
    requires t.scan == AtOpen(PosOf(log, |w.hist.base|))
    requires Concat(w.store.chunks, t.chunkSeq) + t.pending == Emitted(log, w.hist.base)
    requires StoredSoFar(w, t, w.hist.base)
    ensures TailerInv(parse, log, w, t)
  {
    OpensBefore(parse, log, |w.hist.base|, t.conn);
    assert Got(log, t.conn) == [];
    assert Read(log, w.hist.base, t.conn.from, 0) == w.hist.base;
  }

  lemma ExtendsItself(a: Progress)
    ensures Extends(a, a)
  {}

  lemma StartKeeps(parse: Parser, log: Log, w: World, from: nat, w': World)
    requires IsLog(parse, log) && Inv(parse, log, w) && Next(parse, log, w, Start(from), w')
    ensures Inv(parse, log, w')
  {
    match w.store.cursor
    case Some(c) =>
      CutAtEnd(log, w.hist.saved, w.hist.cuts);
      StoreKeeps(log, w.store, w.hist, w'.hist);
      ConcatEmpty(Concat(w.store.chunks, c.nextSeq));
      ExtendsItself(w.hist.saved);
      JustOpened(parse, log, w', w'.tailer.value);
    case None =>
      assert w'.hist.stored == [] && w'.hist.base == [];
      JustOpened(parse, log, w', w'.tailer.value);
  }

  /** The tailer's position and output after what was read on a connection. */
  lemma ConnectionOut(parse: Parser, log: Log, base: Progress, c: Connection)
    requires IsLog(parse, log) && IsProgress(log, base) && Opens(log, PosOf(log, |base|), c)
    ensures c.from <= |base|
    ensures var fed := Feed(parse, AtOpen(PosOf(log, |base|)), Got(log, c));
            && fed.scan.pos == PosOf(log, |Read(log, base, c.from, c.read)|)
            && Emitted(log, Read(log, base, c.from, c.read)) == Emitted(log, base) + fed.out
  {
    OpensBefore(parse, log, |base|, c);
    assert AtOpen(PosOf(log, |base|)) == ScanAt(log, |base|, c.from, c.from);
    FeedStream(parse, log, |base|, c.from, c.from, c.read);
    FreshIsProgress(log, base, |base|, c.from, c.read);
  }

  /** What one more piece of the stream adds. */
  lemma ReceiveFeeds(parse: Parser, log: Log, base: Progress, c: Connection, data: bytes, c': Connection)
    requires IsLog(parse, log) && IsProgress(log, base)
    requires Opens(log, PosOf(log, |base|), c) && Opens(log, PosOf(log, |base|), c')
    requires c'.from == c.from && Got(log, c') == Got(log, c) + data
    ensures c.from <= |base|
    ensures var open := AtOpen(PosOf(log, |base|));
            var more := Feed(parse, Feed(parse, open, Got(log, c)).scan, data);
            && more.scan == Feed(parse, open, Got(log, c')).scan
            && Emitted(log, Read(log, base, c'.from, c'.read)) == Emitted(log, Read(log, base, c.from, c.read)) + more.out
  {
    var open := AtOpen(PosOf(log, |base|));
    ConnectionOut(parse, log, base, c);
    ConnectionOut(parse, log, base, c');
    ChunkingIndependence(parse, open, Got(log, c), data);
    var sofar := Feed(parse, open, Got(log, c));
    ConcatAssoc(Emitted(log, base), sofar.out, Feed(parse, sofar.scan, data).out);
  }

  /** The bookkeeping of a step that only reads on. */
  lemma StillStoredSoFar(log: Log, w: World, t: Tailing, t': Tailing)
    requires IsProgress(log, w.hist.base) && t.conn.from <= |w.hist.base|
    requires !t.cursorDue && t'.chunkSeq == t.chunkSeq && !t'.cursorDue
    requires StoredSoFar(w, t, Read(log, w.hist.base, t.conn.from, t.conn.read))
    requires t'.conn.from == t.conn.from && t'.conn.read >= t.conn.read
    ensures StoredSoFar(w.(tailer := Some(t')), t', Read(log, w.hist.base, t'.conn.from, t'.conn.read))
  {
    if w.store.cursor.Some? {
      ReadExtends(log, w.hist.base, t.conn.from, t.conn.read, t'.conn.read);
    }
  }

  lemma StillOpens(log: Log, pos: Position, c: Connection, c': Connection)
    requires Opens(log, pos, c) && c'.from == c.from && c'.read <= |Stream(log, c.from)|
    ensures Opens(log, pos, c')
  {
    forall i | 0 <= i < c.from ensures StampedBefore(log, i, pos.last) {
      assert StampedBefore(log, i, pos.last);
    }
  }

  lemma ReceiveKeeps(parse: Parser, log: Log, w: World, data: bytes, w': World)
    requires IsLog(parse, log) && Inv(parse, log, w) && Next(parse, log, w, Receive(data), w')
    ensures Inv(parse, log, w')
  {
    var t, t', base := w.tailer.value, w'.tailer.value, w.hist.base;
    StillOpens(log, PosOf(log, |base|), t.conn, t'.conn);
    ReceiveFeeds(parse, log, base, t.conn, data, t'.conn);
    ConcatAssoc(Concat(w.store.chunks, t.chunkSeq), t.pending, Feed(parse, t.scan, data).out);
    StillStoredSoFar(log, w, t, t');
  }

  /** Where the tailer stands, read off its state. */
  lemma TailerStands(parse: Parser, log: Log, w: World)
    requires IsLog(parse, log) && Inv(parse, log, w) && w.tailer.Some?
    ensures w.tailer.value.scan.pos == PosOf(log, |Now(log, w)|)
    ensures Ragged(log, Now(log, w), w.hist.cuts)
  {
    var t, base := w.tailer.value, w.hist.base;
    ConnectionOut(parse, log, base, t.conn);
    ReadIsRagged(log, base, t.conn.from, t.conn.read, w.hist.cuts);
  }

  lemma ReopenKeeps(parse: Parser, log: Log, w: World, from: nat, w': World)
    requires IsLog(parse, log) && Inv(parse, log, w) && Next(parse, log, w, Reopen(from), w')
    ensures Inv(parse, log, w')
  {
    TailerStands(parse, log, w);
    CutAtEnd(log, Now(log, w), w.hist.cuts);
    StoreKeeps(log, w.store, w.hist, w'.hist);
    JustOpened(parse, log, w', w'.tailer.value);
  }

  /** The chunks once pending is stored as the next one. */
  lemma PutConcat(chunks: map<nat, bytes>, n: nat, body: bytes)
    ensures Concat(chunks[n := body], n) == Concat(chunks, n)
    ensures Concat(chunks[n := body], n + 1) == Concat(chunks, n) + body
  {
    ConcatFrame(chunks, chunks[n := body], n);
  }

  lemma PutChunkStore(log: Log, w: World, t: Tailing, now: Progress)
    requires StoreInv(log, w.store, w.hist) && Ragged(log, now, w.hist.cuts) && !t.cursorDue
    requires Concat(w.store.chunks, t.chunkSeq) + t.pending == Emitted(log, now)
    requires StoredSoFar(w, t, now)
    ensures StoreInv(log, w.store.(chunks := w.store.chunks[t.chunkSeq := t.pending]),
                     w.hist.(stored := now, top := t.chunkSeq + 1))
  {
    PutConcat(w.store.chunks, t.chunkSeq, t.pending);
  }

  lemma PutChunkBooks(log: Log, w: World, t: Tailing, now: Progress, w': World, t': Tailing)
    requires IsProgress(log, now) && Concat(w.store.chunks, t.chunkSeq) + t.pending == Emitted(log, now)
    requires StoredSoFar(w, t, now) && !t.cursorDue
    requires t' == t.(pending := [], chunkSeq := t.chunkSeq + 1, cursorDue := true)
    requires w'.store == w.store.(chunks := w.store.chunks[t.chunkSeq := t.pending])
    requires w'.hist == w.hist.(stored := now, top := t.chunkSeq + 1)
    ensures Concat(w'.store.chunks, t'.chunkSeq) + t'.pending == Emitted(log, now)
    ensures StoredSoFar(w', t', now)
  {
    PutConcat(w.store.chunks, t.chunkSeq, t.pending);
    ConcatEmpty(Concat(w'.store.chunks, t'.chunkSeq));
    ExtendsItself(now);
  }

  lemma PutChunkTailer(parse: Parser, log: Log, w: World, w': World)
    requires Inv(parse, log, w) && Next(parse, log, w, PutChunk, w')
    ensures TailerInv(parse, log, w', w'.tailer.value)
  {
    PutChunkBooks(log, w, w.tailer.value, Now(log, w), w', w'.tailer.value);
  }

  lemma PutChunkKeeps(parse: Parser, log: Log, w: World, w': World)
    requires IsLog(parse, log) && Inv(parse, log, w) && Next(parse, log, w, PutChunk, w')
    ensures Inv(parse, log, w')
  {
    TailerStands(parse, log, w);
    PutChunkStore(log, w, w.tailer.value, Now(log, w));
    PutChunkTailer(parse, log, w, w');
  }

  lemma PutCursorKeeps(parse: Parser, log: Log, w: World, w': World)
    requires IsLog(parse, log) && Inv(parse, log, w) && Next(parse, log, w, PutCursor, w')
    ensures Inv(parse, log, w')
  {
    var t := w.tailer.value;
    TailerStands(parse, log, w);
    PosMeaning(parse, log, |Now(log, w)|);
    ExtendsItself(Now(log, w));
    if t.scan.pos.last == ZERO_TIME && w.store.cursor.Some? {
      PosGrows(parse, log, |w.hist.saved|, |Now(log, w)|);
    }
  }

  lemma StepKeeps(parse: Parser, log: Log, w: World, e: Event, w': World)
    requires IsLog(parse, log) && Inv(parse, log, w) && Next(parse, log, w, e, w')
    ensures Inv(parse, log, w')
  {
    match e
    case Start(from) => StartKeeps(parse, log, w, from, w');
    case Receive(data) => ReceiveKeeps(parse, log, w, data, w');
    case Reopen(from) => ReopenKeeps(parse, log, w, from, w');
    case PutChunk => PutChunkKeeps(parse, log, w, w');
    case PutCursor => PutCursorKeeps(parse, log, w, w');
    case Crash =>
  }

  // ----- Every run --------------------------------------------------------------------

  /** A run: worlds[i + 1] follows worlds[i] by events[i], from an empty store. */
  ghost predicate IsRun(parse: Parser, log: Log, worlds: seq<World>, events: seq<Event>) {
    && |worlds| == |events| + 1
    && worlds[0] == EMPTY
    && forall i {:trigger events[i]} :: 0 <= i < |events| ==> Next(parse, log, worlds[i], events[i], worlds[i + 1])
  }

  lemma {:induction false} RunKeeps(parse: Parser, log: Log, worlds: seq<World>, events: seq<Event>, n: nat)
    requires IsLog(parse, log) && IsRun(parse, log, worlds, events) && n <= |events|
    ensures Inv(parse, log, worlds[n])
  {
    if n > 0 {
      RunKeeps(parse, log, worlds, events, n - 1);
      StepKeeps(parse, log, worlds[n - 1], events[n - 1], worlds[n]);
    }
  }

  /**
   After any run of reads, disconnects, flushes and crashes (between a chunk's Put and its
   cursor's included), the stored chunks are numbered without a gap and, in key order, are
   the stripped log up to some point: every line once and in order, short only where a
   stream or a tailer ended inside it, or at the very end.
   */
  lemma StoredLogIsPrefix(parse: Parser, log: Log, worlds: seq<World>, events: seq<Event>, n: nat)
    returns (lens: Progress, top: nat)
    requires IsLog(parse, log) && IsRun(parse, log, worlds, events) && n <= |events|
    ensures forall k: nat {:trigger k in worlds[n].store.chunks} :: k in worlds[n].store.chunks <==> k < top
    ensures Ragged(log, lens, worlds[n].hist.cuts)
    ensures Concat(worlds[n].store.chunks, top) == Emitted(log, lens)
  {
    RunKeeps(parse, log, worlds, events, n);
    return worlds[n].hist.stored, worlds[n].hist.top;
  }

  /** Line i is the last one of this progress, and short of its content or newline. */
  predicate ShortAt(log: Log, lens: Progress, i: nat) {
    i < |log| && |lens| == i + 1 && lens[i] < |log[i].content| + 1
  }

  /** A stream was left inside line i, or a tailer resumed from a cursor that was inside it. */
  ghost predicate LeftInside(log: Log, w: World, e: Event, i: nat) {
    || (e.Reopen? && w.tailer.Some? && IsProgress(log, w.hist.base) && w.tailer.value.conn.from <= |w.hist.base|
        && ShortAt(log, Now(log, w), i))
    || (e.Start? && w.store.cursor.Some? && ShortAt(log, w.hist.saved, i))
  }

  /** The cuts that are remembered are lines that a stream or a tailer really ended inside. */
  lemma {:induction false} CutsAreInside(parse: Parser, log: Log, worlds: seq<World>, events: seq<Event>, n: nat, i: nat)
    returns (m: nat)
    requires IsRun(parse, log, worlds, events) && n <= |events| && i in worlds[n].hist.cuts
    ensures m < n && LeftInside(log, worlds[m], events[m], i)
  {
    m := n - 1;
    assert Next(parse, log, worlds[m], events[m], worlds[n]);
    if i in worlds[m].hist.cuts {
      m := CutsAreInside(parse, log, worlds, events, m, i);
    }
  }

  /** Without a crash or a disconnect inside a line, the stored log is an exact prefix. */
  lemma UncutLogIsExact(parse: Parser, log: Log, worlds: seq<World>, events: seq<Event>, n: nat)
    requires IsLog(parse, log) && IsRun(parse, log, worlds, events) && n <= |events|
    requires worlds[n].hist.cuts == {}
    ensures exists top: nat ::
              Concat(worlds[n].store.chunks, top) <= Stripped(log)
              && forall k: nat {:trigger k in worlds[n].store.chunks} :: k in worlds[n].store.chunks <==> k < top
  {
    RunKeeps(parse, log, worlds, events, n);
    RaggedAtEnd(log, worlds[n].hist.stored);
  }

  lemma {:induction false} RaggedAtEnd(log: Log, lens: Progress)
    requires Ragged(log, lens, {})
    ensures Emitted(log, lens) <= Stripped(log)
  {
    if lens != [] {
      var i := |lens| - 1;
      WholeLines(log, lens[..i]);
      StrippedPrefix(log, i + 1);
      assert log[..i + 1][..i] == log[..i];
    } else {
      assert Emitted(log, lens) == [];
    }
  }

  lemma {:induction false} StrippedPrefix(log: Log, n: nat)
    requires n <= |log|
    ensures Stripped(log[..n]) <= Stripped(log)
    decreases |log|
  {
    if n == |log| {
      assert log[..n] == log;
    } else {
      StrippedPrefix(log[..|log| - 1], n);
      assert log[..|log| - 1][..n] == log[..n];
    }
  }

  /** A tailer that has read its stream to the end and flushed has stored every line. */
  lemma FlushedAtEndIsComplete(parse: Parser, log: Log, worlds: seq<World>, events: seq<Event>, n: nat)
    requires IsLog(parse, log) && IsRun(parse, log, worlds, events) && n <= |events|
    requires var w := worlds[n];
             && w.tailer.Some? && w.tailer.value.pending == [] && w.tailer.value.cursorDue
             && w.tailer.value.conn.from <= |log|
             && w.tailer.value.conn.read == |Stream(log, w.tailer.value.conn.from)|
    ensures IsProgress(log, worlds[n].hist.stored) && |worlds[n].hist.stored| == |log|
    ensures Concat(worlds[n].store.chunks, worlds[n].hist.top) == Emitted(log, worlds[n].hist.stored)
  {
    RunKeeps(parse, log, worlds, events, n);
    var w := worlds[n];
    ReadToEnd(log, w.hist.base, w.tailer.value.conn.from);
  }

  /** It has so too once its cursor was put, which is how a log ends. */
  lemma EndedIsComplete(parse: Parser, log: Log, worlds: seq<World>, events: seq<Event>, n: nat)
    requires IsLog(parse, log) && IsRun(parse, log, worlds, events) && 0 < n <= |events| && events[n - 1] == PutCursor
    requires var w := worlds[n];
             && w.tailer.Some? && w.tailer.value.pending == [] && w.tailer.value.conn.from <= |log|
             && w.tailer.value.conn.read == |Stream(log, w.tailer.value.conn.from)|
    ensures IsProgress(log, worlds[n].hist.stored) && |worlds[n].hist.stored| == |log|
    ensures Concat(worlds[n].store.chunks, worlds[n].hist.top) == Emitted(log, worlds[n].hist.stored)
  {
    assert Next(parse, log, worlds[n - 1], PutCursor, worlds[n]);
    FlushedAtEndIsComplete(parse, log, worlds, events, n - 1);
  }

  // ----- A cursor that cannot be read -------------------------------------------------

  /**
   An operator that finds a cursor but cannot read it starts over: it wipes the chunks. The
   cursor is kept outside the chunks' prefix, so it stays.
   */
  ghost predicate StartUnread(log: Log, w: World, from: nat, w': World) {
    && w.tailer.None? && w.store.cursor.Some?
    && Opens(log, START, Connection(from, 0))
    && w' == World(Store(map[], w.store.cursor), Some(Opened(START, 0, from, [])),
                   w.hist.(base := [], stored := [], top := 0))
  }

  /** The world as it would be without its cursor. */
  function Blind(w: World): World {
    w.(store := w.store.(cursor := None))
  }

  ghost predicate PutsACursor(w: World, e: Event) {
    e == PutCursor && w.tailer.Some? && w.tailer.value.scan.pos.last != ZERO_TIME
  }

  /** What can happen until the next operator starts. */
  ghost predicate IsLife(parse: Parser, log: Log, worlds: seq<World>, events: seq<Event>) {
    && |worlds| == |events| + 1
    && forall i {:trigger events[i]} :: 0 <= i < |events| ==> !events[i].Start? && Next(parse, log, worlds[i], events[i], worlds[i + 1])
  }

  /** One of the first n events puts a cursor. */
  ghost predicate NewCursor(worlds: seq<World>, events: seq<Event>, n: nat)
    requires n <= |events| < |worlds|
  {
    n > 0 && (NewCursor(worlds, events, n - 1) || PutsACursor(worlds[n - 1], events[n - 1]))
  }

  /** Every line is stamped after the zero time, which stands for no position. */
  ghost predicate StampedLate(log: Log) {
    forall i {:trigger log[i].ts} :: 0 <= i < |log| ==> log[i].ts > ZERO_TIME
  }

  /** The old cursor c is still there; where every line gives a position, at most one chunk was put since the wipe. */
  ghost predicate StaleInv(parse: Parser, log: Log, w: World, c: Cursor, saved: Progress) {
    && Inv(parse, log, Blind(w))
    && w.store.cursor == Some(c) && w.hist.saved == saved && Ragged(log, saved, w.hist.cuts)
    && (StampedLate(log) ==>
          && w.hist.top <= 1
          && (w.hist.top == 1 && w.tailer.Some? ==> w.tailer.value.cursorDue)
          && (w.tailer.Some? && w.tailer.value.cursorDue ==> w.tailer.value.scan.pos.last != ZERO_TIME))
  }

  lemma StartsStale(parse: Parser, log: Log, w: World, from: nat, w1: World)
    requires IsLog(parse, log) && Inv(parse, log, w) && StartUnread(log, w, from, w1)
    ensures StaleInv(parse, log, w1, w.store.cursor.value, w.hist.saved)
  {
    var b := Blind(w1);
    assert b.hist.stored == [] && b.hist.base == [];
    JustOpened(parse, log, b, b.tailer.value);
  }

  /** Published bytes come from a line, so there is a position. */
  lemma PublishedHasPosition(parse: Parser, log: Log, w: World)
    requires IsLog(parse, log) && Inv(parse, log, w) && w.tailer.Some? && w.tailer.value.pending != [] && StampedLate(log)
    ensures w.tailer.value.scan.pos.last != ZERO_TIME
  {
    TailerStands(parse, log, w);
    assert Now(log, w) != [];
    PosMeaning(parse, log, |Now(log, w)|);
    assert log[|Now(log, w)| - 1].ts > ZERO_TIME;
  }

  /** But for a new cursor, a step does not depend on the cursor there is. */
  lemma BlindStep(parse: Parser, log: Log, w: World, e: Event, w': World)
    requires w.store.cursor.Some? && !e.Start? && Next(parse, log, w, e, w')
    ensures PutsACursor(w, e) ==> Next(parse, log, Blind(w), e, w')
    ensures !PutsACursor(w, e) ==> Next(parse, log, Blind(w), e, Blind(w')) && w'.store.cursor == w.store.cursor
    ensures !PutsACursor(w, e) ==> w'.hist.saved == w.hist.saved && w.hist.cuts <= w'.hist.cuts
  {}

  /** Where every line gives a position, a chunk is put only while there is none, and its cursor is due then. */
  lemma OneChunk(parse: Parser, log: Log, w: World, e: Event, w': World, c: Cursor, saved: Progress)
    requires IsLog(parse, log) && StaleInv(parse, log, w, c, saved) && StampedLate(log)
    requires !e.Start? && Next(parse, log, w, e, w') && !PutsACursor(w, e)
    ensures w'.hist.top <= 1
    ensures w'.hist.top == 1 && w'.tailer.Some? ==> w'.tailer.value.cursorDue
    ensures w'.tailer.Some? && w'.tailer.value.cursorDue ==> w'.tailer.value.scan.pos.last != ZERO_TIME
  {
    if e.PutChunk? {
      PublishedHasPosition(parse, log, Blind(w));
      assert StoredSoFar(Blind(w), w.tailer.value, Now(log, Blind(w)));
    }
  }

  lemma StaysStale(parse: Parser, log: Log, w: World, e: Event, w': World, c: Cursor, saved: Progress)
    requires IsLog(parse, log) && StaleInv(parse, log, w, c, saved)
    requires !e.Start? && Next(parse, log, w, e, w') && !PutsACursor(w, e)
    ensures StaleInv(parse, log, w', c, saved)
  {
    BlindStep(parse, log, w, e, w');
    StepKeeps(parse, log, Blind(w), e, Blind(w'));
    if StampedLate(log) {
      OneChunk(parse, log, w, e, w', c, saved);
    }
  }

  lemma {:induction false} LifeOf(parse: Parser, log: Log, worlds: seq<World>, events: seq<Event>, n: nat, c: Cursor, saved: Progress)
    requires IsLog(parse, log) && IsLife(parse, log, worlds, events) && n <= |events|
    requires StaleInv(parse, log, worlds[0], c, saved)
    ensures NewCursor(worlds, events, n) ==> Inv(parse, log, worlds[n])
    ensures !NewCursor(worlds, events, n) ==> StaleInv(parse, log, worlds[n], c, saved)
  {
    if n > 0 {
      LifeOf(parse, log, worlds, events, n - 1, c, saved);
      LifeGoesOn(parse, log, worlds[n - 1], events[n - 1], worlds[n], c, saved, NewCursor(worlds, events, n - 1));
    }
  }

  lemma LifeGoesOn(parse: Parser, log: Log, w: World, e: Event, w': World, c: Cursor, saved: Progress, renewed: bool)
    requires IsLog(parse, log) && !e.Start? && Next(parse, log, w, e, w')
    requires if renewed then Inv(parse, log, w) else StaleInv(parse, log, w, c, saved)
    ensures renewed || PutsACursor(w, e) ==> Inv(parse, log, w')
    ensures !(renewed || PutsACursor(w, e)) ==> StaleInv(parse, log, w', c, saved)
  {
    if renewed {
      StepKeeps(parse, log, w, e, w');
    } else if PutsACursor(w, e) {
      BlindStep(parse, log, w, e, w');
      StepKeeps(parse, log, Blind(w), e, w');
    } else {
      StaysStale(parse, log, w, e, w', c, saved);
    }
  }

  /** The chunks put since the wipe are as many as the old cursor counts, or one more, and are again what it stands for. */
  ghost predicate CaughtUp(log: Log, w: World, c: Cursor, saved: Progress) {
    && w.hist.top in {c.nextSeq, c.nextSeq + 1}
    && Extends(saved, w.hist.stored)
    && (w.hist.top == c.nextSeq ==> w.hist.stored == saved)
    && IsProgress(log, saved) && Concat(w.store.chunks, c.nextSeq) == Emitted(log, saved)
  }

  lemma ResumesStale(parse: Parser, log: Log, w: World, c: Cursor, saved: Progress, again: nat, w': World)
    requires IsLog(parse, log) && StaleInv(parse, log, w, c, saved) && Next(parse, log, w, Start(again), w')
    requires IsProgress(log, saved) && c.pos == PosOf(log, |saved|) && c.pos.last > ZERO_TIME
    ensures Inv(parse, log, w') <==> CaughtUp(log, w, c, saved)
  {
    if CaughtUp(log, w, c, saved) {
      assert Inv(parse, log, w);
      StartKeeps(parse, log, w, again, w');
    }
  }

  /**
   A cursor that could not be read stays behind while its chunks are wiped. If that operator crashes,
   the next one is sound exactly when a new cursor was put in between, or the chunks had caught up with
   the old one. Otherwise it resumes behind chunks that are gone, or over ones that go further.
   */
  lemma UnreadCursorExactly(parse: Parser, log: Log, w: World, from: nat, worlds: seq<World>, events: seq<Event>, again: nat, w': World)
    requires IsLog(parse, log) && Inv(parse, log, w) && IsLife(parse, log, worlds, events)
    requires StartUnread(log, w, from, worlds[0])
    requires Next(parse, log, worlds[|events|], Start(again), w')
    ensures Inv(parse, log, w') <==>
            NewCursor(worlds, events, |events|) || CaughtUp(log, worlds[|events|], w.store.cursor.value, w.hist.saved)
  {
    var c := w.store.cursor.value;
    StartsStale(parse, log, w, from, worlds[0]);
    LifeOf(parse, log, worlds, events, |events|, c, w.hist.saved);
    if NewCursor(worlds, events, |events|) {
      StepKeeps(parse, log, worlds[|events|], Start(again), w');
    } else {
      ResumesStale(parse, log, worlds[|events|], c, w.hist.saved, again, w');
    }
  }

  /**
   Where every line gives a position, catching up takes a cursor that counted one chunk, and a first
   chunk that is that one again: a crash after it and before its cursor.
   */
  lemma CatchingUpIsRare(parse: Parser, log: Log, w: World, from: nat, worlds: seq<World>, events: seq<Event>)
    requires IsLog(parse, log) && Inv(parse, log, w) && IsLife(parse, log, worlds, events) && StampedLate(log)
    requires StartUnread(log, w, from, worlds[0]) && Emitted(log, w.hist.saved) != []
    requires !NewCursor(worlds, events, |events|)
    ensures var last, c := worlds[|events|], w.store.cursor.value;
            CaughtUp(log, last, c, w.hist.saved) <==> last.hist.top == 1 == c.nextSeq && last.hist.stored == w.hist.saved
  {
    var last, c := worlds[|events|], w.store.cursor.value;
    StartsStale(parse, log, w, from, worlds[0]);
    LifeOf(parse, log, worlds, events, |events|, c, w.hist.saved);
    ExtendsItself(w.hist.saved);
  }

  lemma {:induction false} NoChunks(n: nat)
    ensures Concat(map[], n) == []
  {
    if n > 0 {
      NoChunks(n - 1);
    }
  }

  /**
   That stale cursor is a hazard until the next one replaces it: after a crash in between,
   the following operator resumes behind chunks that are gone, and everything before the
   position is missing for good.
   */
  lemma UnreadCursorLosesTheLog(parse: Parser, log: Log, w: World, from: nat, w1: World, w2: World, again: nat, w3: World)
    requires IsLog(parse, log) && Inv(parse, log, w) && StartUnread(log, w, from, w1)
    requires Next(parse, log, w1, Crash, w2) && Next(parse, log, w2, Start(again), w3)
    requires Emitted(log, w.hist.saved) != []
    ensures w3.tailer.Some? && w3.tailer.value.scan.pos == PosOf(log, |w.hist.saved|)
    ensures w3.tailer.value.chunkSeq > 0
    ensures forall n: nat :: Concat(w3.store.chunks, n) == []
    ensures !Inv(parse, log, w3)
  {
    forall n: nat ensures Concat(w3.store.chunks, n) == [] {
      NoChunks(n);
    }
    assert Concat(w3.store.chunks, w3.store.cursor.value.nextSeq) != Emitted(log, w3.hist.saved);
  }
}
