/**
 Logs of timestamped lines, and what a tailer publishes of them when its stream is cut at
 arbitrary bytes and reopened any number of times.
 */
module Replay {
  import opened Bytes
  import opened Transducer

  /** A log line as the kubelet sends it: timestamp, space, content, newline. */
  datatype Line = Line(stamp: bytes, ts: Time, content: bytes)
  {
    /** What is published of the line once its timestamp is stripped. */
    function Body(): bytes { content + [NEWLINE] }

    function Render(): bytes { stamp + [SPACE] + Body() }

    predicate WellFormed(parse: Parser) {
      && 0 < |stamp| <= MAX_TIMESTAMP_LEN
      && (forall i :: 0 <= i < |stamp| ==> IsTimestampByte(stamp[i]))
      && parse(stamp) == Some(ts)
      && NEWLINE !in content
    }
  }

  type Log = seq<Line>

  /** Well-formed lines whose timestamps never decrease (they may repeat). */
  ghost predicate IsLog(parse: Parser, log: Log) {
    && (forall i {:trigger LineOk(parse, log, i)} :: 0 <= i < |log| ==> LineOk(parse, log, i))
    && (forall i, j {:trigger InOrder(log, i, j)} :: 0 <= i <= j < |log| ==> InOrder(log, i, j))
  }

  ghost predicate LineOk(parse: Parser, log: Log, i: nat)
    requires i < |log|
  {
    log[i].WellFormed(parse) && log[i].ts >= ZERO_TIME
  }

  predicate InOrder(log: Log, i: nat, j: nat)
    requires i < |log| && j < |log|
  {
    log[i].ts <= log[j].ts
  }

  /** The bytes of the log from line k on. */
  function Stream(log: Log, k: nat): bytes
    requires k <= |log|
    decreases |log| - k
  {
    if k == |log| then [] else log[k].Render() + Stream(log, k + 1)
  }

  /** The position after the first m lines. */
  function PosOf(log: Log, m: nat): Position
    requires m <= |log|
  {
    if m == 0 then START else PosOf(log, m - 1).Advance(log[m - 1].ts)
  }

  /** How many of the lines a..b carry timestamp ts. */
  function Count(log: Log, a: nat, b: nat, ts: Time): nat
    requires a <= b <= |log|
    decreases b - a
  {
    if a == b then 0 else Count(log, a, b - 1, ts) + if log[b - 1].ts == ts then 1 else 0
  }

  lemma {:induction false} CountSplit(log: Log, a: nat, b: nat, c: nat, ts: Time)
    requires a <= b <= c <= |log|
    ensures Count(log, a, c, ts) == Count(log, a, b, ts) + Count(log, b, c, ts)
    decreases c - b
  {
    if b < c {
      CountSplit(log, a, b, c - 1, ts);
    }
  }

  lemma {:induction false} CountNone(log: Log, a: nat, b: nat, ts: Time)
    requires a <= b <= |log|
    requires forall i :: a <= i < b ==> log[i].ts != ts
    ensures Count(log, a, b, ts) == 0
    decreases b - a
  {
    if a < b {
      CountNone(log, a, b - 1, ts);
    }
  }

  /** A position counts the lines at its timestamp, of all the lines before it. */
  lemma {:induction false} PosMeaning(parse: Parser, log: Log, m: nat)
    requires IsLog(parse, log) && m <= |log|
    ensures PosOf(log, m).last == (if m == 0 then ZERO_TIME else log[m - 1].ts)
    ensures PosOf(log, m).atLast == Count(log, 0, m, PosOf(log, m).last)
    ensures PosOf(log, m).last >= ZERO_TIME
  {
    if m > 0 {
      PosMeaning(parse, log, m - 1);
      assert LineOk(parse, log, m - 1);
      if log[m - 1].ts != PosOf(log, m - 1).last {
        assert m > 1 ==> InOrder(log, m - 2, m - 1);
        forall i | 0 <= i < m - 1 ensures log[i].ts != log[m - 1].ts {
          assert InOrder(log, i, m - 2);
        }
        CountNone(log, 0, m - 1, log[m - 1].ts);
      }
    }
  }

  predicate StampedBefore(log: Log, i: nat, ts: Time)
    requires i < |log|
  {
    log[i].ts < ts
  }

  /**
   A stream reopened at the position after m lines starts at line k, no later than the
   first line with the position's timestamp; a stream opened with no position starts at
   the first line.
   */
  ghost predicate OpensAt(log: Log, m: nat, k: nat) {
    && k <= m <= |log|
    && forall i {:trigger StampedBefore(log, i, PosOf(log, m).last)} :: 0 <= i < k ==>
         StampedBefore(log, i, PosOf(log, m).last)
  }

  /** The filter's state on reaching line j of a stream opened at line k after m lines. */
  function FilterAt(log: Log, m: nat, k: nat, j: nat): Filter
    requires k <= j <= |log| && m <= |log|
  {
    Filter(PosOf(log, m), Count(log, k, j, PosOf(log, m).last))
  }

  /** The tailer's whole state there. */
  function ScanAt(log: Log, m: nat, k: nat, j: nat): Scan
    requires k <= j <= |log| && m <= |log|
  {
    Scan(Header, [], PosOf(log, if j <= m then m else j), FilterAt(log, m, k, j))
  }

  /** Line j is dropped as a replay exactly when it was published before the stream opened. */
  lemma FilterDecides(parse: Parser, log: Log, m: nat, k: nat, j: nat)
    requires IsLog(parse, log) && OpensAt(log, m, k) && k <= j < |log|
    ensures FilterAt(log, m, k, j).Keeps(log[j].ts) <==> j >= m
    ensures FilterAt(log, m, k, j).Saw(log[j].ts) == FilterAt(log, m, k, j + 1)
  {
    var last := PosOf(log, m).last;
    PosMeaning(parse, log, m);
    forall i | 0 <= i < k ensures log[i].ts != last {
      assert StampedBefore(log, i, last);
    }
    CountNone(log, 0, k, last);
    CountSplit(log, 0, k, m, last);
    assert LineOk(parse, log, j);
    assert if j < m then InOrder(log, j, m - 1) else m > 0 ==> InOrder(log, m - 1, j);
    if j < m {
      CountSplit(log, k, j + 1, m, last);
    } else {
      CountSplit(log, k, m, j, last);
    }
  }

  // ----- One line ---------------------------------------------------------------------

  lemma FeedOne(parse: Parser, s: Scan, c: byte)
    ensures Feed(parse, s, [c]) == Step(parse, s, c)
  {
    assert [c][1..] == [];
    ConcatEmpty(Step(parse, s, c).out);
  }

  /** Reading a timestamp byte by byte only fills the header. */
  lemma {:induction false} FeedStamp(parse: Parser, s: Scan, stamp: bytes)
    requires s.line == Header && |s.hdr| + |stamp| <= MAX_TIMESTAMP_LEN
    requires forall i :: 0 <= i < |stamp| ==> IsTimestampByte(stamp[i])
    ensures Feed(parse, s, stamp) == Fed(s.(hdr := s.hdr + stamp), [])
    decreases |stamp|
  {
    if stamp == [] {
      ConcatEmpty(s.hdr);
    } else {
      var next := s.(hdr := s.hdr + [stamp[0]]);
      assert stamp == [stamp[0]] + stamp[1..];
      ConcatAssoc(s.hdr, [stamp[0]], stamp[1..]);
      FeedStamp(parse, next, stamp[1..]);
    }
  }

  /** Inside a line, content goes out or is dropped, and only a newline ends it. */
  lemma {:induction false} FeedContent(parse: Parser, s: Scan, content: bytes)
    requires s.line != Header && NEWLINE !in content
    ensures Feed(parse, s, content) == Fed(s, if s.line == Keep then content else [])
    decreases |content|
  {
    if content != [] {
      FeedContent(parse, s, content[1..]);
      assert content == [content[0]] + content[1..];
    }
  }

  lemma FeedBody(parse: Parser, s: Scan, content: bytes)
    requires s.line != Header && NEWLINE !in content
    ensures Feed(parse, s, content + [NEWLINE]) ==
            Fed(s.(line := Header), if s.line == Keep then content + [NEWLINE] else [])
  {
    FeedContent(parse, s, content);
    ChunkingIndependence(parse, s, content, [NEWLINE]);
    FeedOne(parse, s, NEWLINE);
  }

  lemma FeedLineStart(parse: Parser, s: Scan, l: Line)
    requires s.line == Header && s.hdr == [] && l.WellFormed(parse)
    ensures Feed(parse, s, l.stamp + [SPACE]) == Fed(AfterStamp(s, l.ts), [])
  {
    FeedStamp(parse, s, l.stamp);
    var filled := s.(hdr := l.stamp);
    ConcatEmpty(l.stamp);
    ChunkingIndependence(parse, s, l.stamp, [SPACE]);
    FeedOne(parse, filled, SPACE);
  }

  /** A line start, read up to the space that ends its timestamp. */
  lemma FeedStart(parse: Parser, log: Log, m: nat, k: nat, j: nat)
    requires IsLog(parse, log) && OpensAt(log, m, k) && k <= j < |log|
    ensures Feed(parse, ScanAt(log, m, k, j), log[j].stamp + [SPACE]) ==
            Fed(ScanAt(log, m, k, j + 1).(line := if j >= m then Keep else Drop), [])
  {
    assert LineOk(parse, log, j);
    FilterDecides(parse, log, m, k, j);
    FeedLineStart(parse, ScanAt(log, m, k, j), log[j]);
    if j == m {
      assert ScanAt(log, m, k, j).pos == PosOf(log, j);
    }
  }

  /** A whole line, from one line start to the next. */
  lemma FeedLine(parse: Parser, log: Log, m: nat, k: nat, j: nat)
    requires IsLog(parse, log) && OpensAt(log, m, k) && k <= j < |log|
    ensures Feed(parse, ScanAt(log, m, k, j), log[j].Render()) ==
            Fed(ScanAt(log, m, k, j + 1), if j >= m then log[j].Body() else [])
  {
    var s, l := ScanAt(log, m, k, j), log[j];
    assert LineOk(parse, log, j);
    var inside := ScanAt(log, m, k, j + 1).(line := if j >= m then Keep else Drop);
    FeedStart(parse, log, m, k, j);
    ChunkingIndependence(parse, s, l.stamp + [SPACE], l.Body());
    FeedBody(parse, inside, l.content);
    ConcatEmpty(Feed(parse, inside, l.Body()).out);
  }

  /** A line cut inside its timestamp has published nothing and moved nothing. */
  lemma FeedCutStamp(parse: Parser, log: Log, m: nat, k: nat, j: nat, n: nat)
    requires IsLog(parse, log) && OpensAt(log, m, k) && k <= j < |log| && n <= |log[j].stamp|
    ensures Feed(parse, ScanAt(log, m, k, j), log[j].Render()[..n]) ==
            Fed(ScanAt(log, m, k, j).(hdr := log[j].stamp[..n]), [])
  {
    assert LineOk(parse, log, j);
    FeedStamp(parse, ScanAt(log, m, k, j), log[j].stamp[..n]);
    assert log[j].Render()[..n] == log[j].stamp[..n];
    ConcatEmpty(log[j].stamp[..n]);
  }

  /** A new line cut in its content has published what was read of it. */
  lemma FeedCutContent(parse: Parser, log: Log, m: nat, k: nat, j: nat, c: nat)
    requires IsLog(parse, log) && OpensAt(log, m, k) && k <= j < |log| && c <= |log[j].content|
    ensures Feed(parse, ScanAt(log, m, k, j), log[j].Render()[..|log[j].stamp| + 1 + c]) ==
            Fed(ScanAt(log, m, k, j + 1).(line := if j >= m then Keep else Drop),
                if j >= m then log[j].Body()[..c] else [])
  {
    var s, l := ScanAt(log, m, k, j), log[j];
    assert LineOk(parse, log, j);
    var inside := ScanAt(log, m, k, j + 1).(line := if j >= m then Keep else Drop);
    FeedStart(parse, log, m, k, j);
    assert l.Render()[..|l.stamp| + 1 + c] == l.stamp + [SPACE] + l.content[..c];
    assert l.Body()[..c] == l.content[..c];
    ChunkingIndependence(parse, s, l.stamp + [SPACE], l.content[..c]);
    FeedContent(parse, inside, l.content[..c]);
    ConcatEmpty(Feed(parse, inside, l.content[..c]).out);
  }

  // ----- One connection ---------------------------------------------------------------

  /**
   How far the log has been published: line i has been started for i < |lens|, and lens[i]
   bytes of its body are out.
   */
  type Progress = seq<nat>

  ghost predicate IsProgress(log: Log, lens: Progress) {
    |lens| <= |log| && forall i {:trigger lens[i]} :: 0 <= i < |lens| ==> lens[i] <= |log[i].Body()|
  }

  /** Everything published: each started line once, in order, cut to its length. */
  ghost function Emitted(log: Log, lens: Progress): bytes
    requires IsProgress(log, lens)
  {
    if lens == [] then []
    else
      var i := |lens| - 1;
      Emitted(log, lens[..i]) + log[i].Body()[..lens[i]]
  }

  /** The progress after n bytes of the stream from line j on. */
  ghost function Read(log: Log, lens: Progress, j: nat, n: nat): (r: Progress)
    requires j <= |lens| && IsProgress(log, lens)
    ensures IsProgress(log, r)
    decreases |log| - j
  {
    if j == |log| || n == 0 then lens
    else
      var l := log[j];
      if n >= |l.Render()| then
        Read(log, Through(log, lens, j), j + 1, n - |l.Render()|)
      else if j < |lens| || n <= |l.stamp| then lens
      else lens + [n - |l.stamp| - 1]
  }

  /** The line the byte n of the stream from line j falls in, and how far into it. */
  function CutLine(log: Log, j: nat, n: nat): (nat, nat)
    requires j <= |log|
    decreases |log| - j
  {
    if j == |log| || n < |log[j].Render()| then (j, n) else CutLine(log, j + 1, n - |log[j].Render()|)
  }

  lemma EmittedSnoc(log: Log, lens: Progress, x: nat)
    requires IsProgress(log, lens) && |lens| < |log| && x <= |log[|lens|].Body()|
    ensures IsProgress(log, lens + [x])
    ensures Emitted(log, lens + [x]) == Emitted(log, lens) + log[|lens|].Body()[..x]
  {
    assert (lens + [x])[..|lens|] == lens;
  }

  /** The progress of one whole line. */
  ghost function Through(log: Log, lens: Progress, j: nat): (r: Progress)
    requires j <= |lens| && j < |log| && IsProgress(log, lens)
    ensures IsProgress(log, r)
    ensures Emitted(log, r) == Emitted(log, lens) + (if j < |lens| then [] else log[j].Body())
  {
    if j < |lens| then lens
    else
      EmittedSnoc(log, lens, |log[j].Body()|);
      assert log[j].Body()[..|log[j].Body()|] == log[j].Body();
      lens + [|log[j].Body()|]
  }

  function Max(a: nat, b: nat): nat {
    if a < b then b else a
  }

  /** What the first n bytes of line j, cut before its end, publish. */
  ghost function CutOut(log: Log, m: nat, j: nat, n: nat): bytes
    requires j < |log| && n < |log[j].Render()|
  {
    if j < m || n <= |log[j].stamp| then [] else log[j].Body()[..n - |log[j].stamp| - 1]
  }

  /** What n bytes of the stream from line j publish when m lines are out already. */
  ghost function Fresh(log: Log, m: nat, j: nat, n: nat): bytes
    requires j <= |log|
    decreases |log| - j
  {
    if j == |log| || n == 0 then []
    else if n < |log[j].Render()| then CutOut(log, m, j, n)
    else (if j < m then [] else log[j].Body()) + Fresh(log, m, j + 1, n - |log[j].Render()|)
  }

  /** How many lines have been started by then. */
  ghost function Begun(log: Log, m: nat, j: nat, n: nat): (r: nat)
    requires j <= |log| && m <= |log|
    ensures r <= |log|
    decreases |log| - j
  {
    if j == |log| || n == 0 then Max(m, j)
    else if n < |log[j].Render()| then Max(m, if n <= |log[j].stamp| then j else j + 1)
    else Begun(log, m, j + 1, n - |log[j].Render()|)
  }

  lemma CutIsFresh(log: Log, m: nat, j: nat, n: nat)
    requires j < |log| && m <= |log| && 0 < n < |log[j].Render()|
    ensures Fresh(log, m, j, n) == CutOut(log, m, j, n)
    ensures Begun(log, m, j, n) == Max(m, if n <= |log[j].stamp| then j else j + 1)
  {}

  lemma CutInStamp(parse: Parser, log: Log, m: nat, k: nat, j: nat, n: nat)
    requires IsLog(parse, log) && OpensAt(log, m, k) && k <= j < |log| && n <= |log[j].stamp|
    ensures var fed := Feed(parse, ScanAt(log, m, k, j), log[j].Render()[..n]);
            fed.out == [] && fed.scan.pos == PosOf(log, Max(m, j))
  {
    FeedCutStamp(parse, log, m, k, j, n);
  }

  lemma CutInContent(parse: Parser, log: Log, m: nat, k: nat, j: nat, n: nat)
    requires IsLog(parse, log) && OpensAt(log, m, k) && k <= j < |log| && |log[j].stamp| < n < |log[j].Render()|
    ensures var fed := Feed(parse, ScanAt(log, m, k, j), log[j].Render()[..n]);
            fed.out == CutOut(log, m, j, n) && fed.scan.pos == PosOf(log, Max(m, j + 1))
  {
    FeedCutContent(parse, log, m, k, j, n - |log[j].stamp| - 1);
  }

  lemma CutFeeds(parse: Parser, log: Log, m: nat, k: nat, j: nat, n: nat)
    requires IsLog(parse, log) && OpensAt(log, m, k) && k <= j < |log|
    requires 0 < n < |log[j].Render()|
    ensures var fed := Feed(parse, ScanAt(log, m, k, j), log[j].Render()[..n]);
            fed.out == Fresh(log, m, j, n) && fed.scan.pos == PosOf(log, Begun(log, m, j, n))
  {
    CutIsFresh(log, m, j, n);
    if n <= |log[j].stamp| {
      CutInStamp(parse, log, m, k, j, n);
    } else {
      CutInContent(parse, log, m, k, j, n);
    }
  }

  lemma LineThenRest(parse: Parser, log: Log, m: nat, k: nat, j: nat, n: nat)
    requires IsLog(parse, log) && OpensAt(log, m, k) && k <= j < |log|
    requires |log[j].Render()| <= n <= |Stream(log, j)|
    ensures var rest := Feed(parse, ScanAt(log, m, k, j + 1), Stream(log, j + 1)[..n - |log[j].Render()|]);
            Feed(parse, ScanAt(log, m, k, j), Stream(log, j)[..n]) ==
            Fed(rest.scan, (if j < m then [] else log[j].Body()) + rest.out)
  {
    var rest := Stream(log, j + 1)[..n - |log[j].Render()|];
    assert Stream(log, j)[..n] == log[j].Render() + rest;
    ChunkingIndependence(parse, ScanAt(log, m, k, j), log[j].Render(), rest);
    FeedLine(parse, log, m, k, j);
  }

  lemma StreamBegins(log: Log, j: nat, n: nat)
    requires j < |log| && n <= |log[j].Render()|
    ensures n <= |Stream(log, j)| && Stream(log, j)[..n] == log[j].Render()[..n]
  {}

  lemma WholeIsFresh(log: Log, m: nat, j: nat, n: nat)
    requires j < |log| && m <= |log| && n >= |log[j].Render()| > 0
    ensures var rest := n - |log[j].Render()|;
            && Fresh(log, m, j, n) == (if j < m then [] else log[j].Body()) + Fresh(log, m, j + 1, rest)
            && Begun(log, m, j, n) == Begun(log, m, j + 1, rest)
  {}

  /** The tailer's output over n bytes of the stream from line j. */
  lemma {:induction false} FeedStream(parse: Parser, log: Log, m: nat, k: nat, j: nat, n: nat)
    requires IsLog(parse, log) && OpensAt(log, m, k) && k <= j <= |log|
    requires n <= |Stream(log, j)|
    ensures var fed := Feed(parse, ScanAt(log, m, k, j), Stream(log, j)[..n]);
            fed.out == Fresh(log, m, j, n) && fed.scan.pos == PosOf(log, Begun(log, m, j, n))
    decreases |log| - j
  {
    if j == |log| || n == 0 {
      assert Stream(log, j)[..n] == [];
    } else if n < |log[j].Render()| {
      StreamBegins(log, j, n);
      CutFeeds(parse, log, m, k, j, n);
    } else {
      LineThenRest(parse, log, m, k, j, n);
      WholeIsFresh(log, m, j, n);
      FeedStream(parse, log, m, k, j + 1, n - |log[j].Render()|);
    }
  }

  lemma CutProgress(log: Log, lens: Progress, m: nat, j: nat, n: nat)
    requires IsProgress(log, lens) && j < |log| && 0 < n < |log[j].Render()|
    requires j <= |lens| == Max(m, j)
    ensures var after := Read(log, lens, j, n);
            && Emitted(log, after) == Emitted(log, lens) + Fresh(log, m, j, n)
            && |after| == Begun(log, m, j, n)
  {
    if j < m || n <= |log[j].stamp| {
      ConcatEmpty(Emitted(log, lens));
    } else {
      EmittedSnoc(log, lens, n - |log[j].stamp| - 1);
    }
  }

  /** The same bytes as progress: those the lines started so far were still missing. */
  lemma {:induction false} FreshIsProgress(log: Log, lens: Progress, m: nat, j: nat, n: nat)
    requires IsProgress(log, lens) && j <= |lens| == Max(m, j)
    ensures var after := Read(log, lens, j, n);
            && Emitted(log, after) == Emitted(log, lens) + Fresh(log, m, j, n)
            && |after| == Begun(log, m, j, n)
    decreases |log| - j
  {
    if j == |log| || n == 0 {
      ConcatEmpty(Emitted(log, lens));
    } else if n < |log[j].Render()| {
      CutProgress(log, lens, m, j, n);
    } else {
      var rest := n - |log[j].Render()|;
      FreshIsProgress(log, Through(log, lens, j), m, j + 1, rest);
      ConcatAssoc(Emitted(log, lens), if j < m then [] else log[j].Body(), Fresh(log, m, j + 1, rest));
    }
  }

  /** The lines after the first k are whole, but for the new line that was cut after its timestamp. */
  ghost predicate ShortAtCut(log: Log, k: nat, after: Progress, cut: (nat, nat)) {
    && |after| <= |log|
    && (forall i {:trigger after[i]} :: k <= i < |after| ==>
          (after[i] < |log[i].Body()| <==> cut.0 == i && cut.1 > |log[i].stamp|))
    && (k <= cut.0 < |log| && cut.1 > |log[cut.0].stamp| ==> cut.0 == |after| - 1)
  }

  lemma CutShape(log: Log, lens: Progress, j: nat, n: nat)
    requires j <= |lens| && IsProgress(log, lens) && j < |log| && 0 < n < |log[j].Render()|
    ensures lens <= Read(log, lens, j, n)
    ensures CutLine(log, j, n) == (j, n) && ShortAtCut(log, |lens|, Read(log, lens, j, n), (j, n))
  {}

  /**
   A connection only adds lines, and the one line it leaves short is the new line it was
   cut in after that line's timestamp.
   */
  lemma {:induction false} ReadShape(log: Log, lens: Progress, j: nat, n: nat)
    requires j <= |lens| && IsProgress(log, lens)
    ensures lens <= Read(log, lens, j, n) && ShortAtCut(log, |lens|, Read(log, lens, j, n), CutLine(log, j, n))
    decreases |log| - j
  {
    if j < |log| && n >= |log[j].Render()| {
      ReadShape(log, Through(log, lens, j), j + 1, n - |log[j].Render()|);
      CutLater(log, j + 1, n - |log[j].Render()|);
    } else if j < |log| && n > 0 {
      CutShape(log, lens, j, n);
    }
  }

  lemma {:induction false} CutLater(log: Log, j: nat, n: nat)
    requires j <= |log|
    ensures j <= CutLine(log, j, n).0 <= |log|
    decreases |log| - j
  {
    if j < |log| && n >= |log[j].Render()| {
      CutLater(log, j + 1, n - |log[j].Render()|);
    }
  }

  // ----- Any number of connections ----------------------------------------------------

  /** A connection: the line its stream starts at and how many bytes of it were read. */
  datatype Connection = Connection(from: nat, read: nat)

  /** What has been published, and the position a reopened stream starts from. */
  datatype Tail = Tail(out: bytes, pos: Position)

  /** The stream starts no later than the first line stamped with the position. */
  ghost predicate Opens(log: Log, pos: Position, c: Connection) {
    && c.from <= |log|
    && c.read <= |Stream(log, c.from)|
    && forall i {:trigger StampedBefore(log, i, pos.last)} :: 0 <= i < c.from ==>
         StampedBefore(log, i, pos.last)
  }

  ghost function Serve(parse: Parser, log: Log, t: Tail, c: Connection): Tail
    requires Opens(log, t.pos, c)
  {
    var fed := Feed(parse, AtOpen(t.pos), Stream(log, c.from)[..c.read]);
    Tail(t.out + fed.out, fed.scan.pos)
  }

  /** tails[i] is what the first i connections left; each opens at the position before it. */
  ghost predicate Served(parse: Parser, log: Log, conns: seq<Connection>, tails: seq<Tail>) {
    && |tails| == |conns| + 1
    && tails[0] == Tail([], START)
    && forall i :: 0 <= i < |conns| ==> ServedOne(parse, log, tails[i], conns[i], tails[i + 1])
  }

  ghost predicate ServedOne(parse: Parser, log: Log, t: Tail, c: Connection, t': Tail) {
    Opens(log, t.pos, c) && t' == Serve(parse, log, t, c)
  }

  /** The connection was cut in line i, after that line's timestamp. */
  predicate CutIn(log: Log, c: Connection, i: nat)
    requires i < |log| && c.from <= |log|
  {
    CutLine(log, c.from, c.read).0 == i && CutLine(log, c.from, c.read).1 > |log[i].stamp|
  }

  ghost predicate ShortOnlyWhereCut(log: Log, conns: seq<Connection>, lens: Progress)
    requires IsProgress(log, lens)
  {
    forall i {:trigger lens[i]} :: 0 <= i < |lens| && lens[i] < |log[i].Body()| ==> CutInSome(log, conns, i)
  }

  /** One of the connections was cut in line i. */
  ghost predicate CutInSome(log: Log, conns: seq<Connection>, i: nat)
    requires i < |log|
  {
    exists c :: c in conns && c.from <= |log| && CutIn(log, c, i)
  }

  lemma OpensBefore(parse: Parser, log: Log, m: nat, c: Connection)
    requires IsLog(parse, log) && m <= |log| && Opens(log, PosOf(log, m), c)
    ensures OpensAt(log, m, c.from)
  {
    PosMeaning(parse, log, m);
    var last := PosOf(log, m).last;
    if m > 0 {
      assert !StampedBefore(log, m - 1, last);
    } else if |log| > 0 {
      assert LineOk(parse, log, 0) && !StampedBefore(log, 0, last);
    }
    forall i | 0 <= i < c.from ensures StampedBefore(log, i, last) {
      assert StampedBefore(log, i, last);
    }
  }

  ghost function TailOf(log: Log, lens: Progress): Tail
    requires IsProgress(log, lens)
  {
    Tail(Emitted(log, lens), PosOf(log, |lens|))
  }

  /** One connection more, from the progress so far. */
  lemma ServeOne(parse: Parser, log: Log, lens: Progress, t: Tail, c: Connection)
    requires IsLog(parse, log) && IsProgress(log, lens)
    requires t == TailOf(log, lens) && Opens(log, t.pos, c)
    ensures c.from <= |lens|
    ensures Serve(parse, log, t, c) == TailOf(log, Read(log, lens, c.from, c.read))
  {
    OpensBefore(parse, log, |lens|, c);
    assert AtOpen(t.pos) == ScanAt(log, |lens|, c.from, c.from);
    FeedStream(parse, log, |lens|, c.from, c.from, c.read);
    FreshIsProgress(log, lens, |lens|, c.from, c.read);
  }

  /** A further connection leaves short only what was short already or what it was cut in. */
  lemma OneMoreCut(log: Log, conns: seq<Connection>, lens: Progress, c: Connection)
    requires IsProgress(log, lens) && ShortOnlyWhereCut(log, conns, lens) && c.from <= |lens|
    ensures ShortOnlyWhereCut(log, conns + [c], Read(log, lens, c.from, c.read))
  {
    var after := Read(log, lens, c.from, c.read);
    ReadShape(log, lens, c.from, c.read);
    forall i | 0 <= i < |after| && after[i] < |log[i].Body()|
      ensures CutInSome(log, conns + [c], i)
    {
      if i < |lens| {
        assert lens[i] == after[i];
        var d :| d in conns && d.from <= |log| && CutIn(log, d, i);
        assert d in conns + [c];
      } else {
        assert c in conns + [c] && CutIn(log, c, i);
      }
    }
  }

  /**
   However often the stream is cut and reopened, each line is published at most once and
   in order, and the only bytes lost are the unread tails of lines cut after their
   timestamp.
   */
  lemma {:induction false} ReplayAfterDisconnects(parse: Parser, log: Log, conns: seq<Connection>,
                                                  tails: seq<Tail>, n: nat)
    returns (lens: Progress)
    requires IsLog(parse, log) && Served(parse, log, conns, tails) && n <= |conns|
    ensures IsProgress(log, lens) && tails[n] == TailOf(log, lens)
    ensures ShortOnlyWhereCut(log, conns[..n], lens)
  {
    if n == 0 {
      return [];
    }
    var c := conns[n - 1];
    var earlier := ReplayAfterDisconnects(parse, log, conns, tails, n - 1);
    assert ServedOne(parse, log, tails[n - 1], c, tails[n]);
    ServeOne(parse, log, earlier, tails[n - 1], c);
    OneMoreCut(log, conns[..n - 1], earlier, c);
    assert conns[..n] == conns[..n - 1] + [c];
    lens := Read(log, earlier, c.from, c.read);
  }

  /** The log with its timestamps stripped. */
  function Stripped(log: Log): bytes {
    if log == [] then [] else Stripped(log[..|log| - 1]) + log[|log| - 1].Body()
  }

  lemma {:induction false} WholeLines(log: Log, lens: Progress)
    requires IsProgress(log, lens)
    requires forall i :: 0 <= i < |lens| ==> lens[i] == |log[i].Body()|
    ensures Emitted(log, lens) == Stripped(log[..|lens|])
  {
    if lens != [] {
      var i := |lens| - 1;
      WholeLines(log, lens[..i]);
      assert log[..i + 1][..i] == log[..i];
      assert log[i].Body()[..lens[i]] == log[i].Body();
    }
  }

  /** Cuts at a line start or inside a timestamp lose nothing at all. */
  lemma NothingLostAtLineStarts(parse: Parser, log: Log, conns: seq<Connection>, tails: seq<Tail>)
    returns (m: nat)
    requires IsLog(parse, log) && Served(parse, log, conns, tails)
    requires forall c, i :: c in conns && c.from <= |log| && 0 <= i < |log| ==> !CutIn(log, c, i)
    ensures m <= |log| && tails[|conns|].out == Stripped(log[..m])
  {
    var lens := ReplayAfterDisconnects(parse, log, conns, tails, |conns|);
    assert conns[..|conns|] == conns;
    forall i | 0 <= i < |lens| ensures lens[i] == |log[i].Body()| {
      assert !CutInSome(log, conns, i);
    }
    WholeLines(log, lens);
    m := |lens|;
  }

  lemma {:induction false} ReadToEnd(log: Log, lens: Progress, j: nat)
    requires j <= |lens| && IsProgress(log, lens)
    ensures |Read(log, lens, j, |Stream(log, j)|)| == |log|
    decreases |log| - j
  {
    if j < |log| {
      ReadToEnd(log, Through(log, lens, j), j + 1);
    }
  }

  /** A last connection read to the end brings the tailer to the last line, and loses nothing more. */
  lemma LastConnectionCompletes(parse: Parser, log: Log, conns: seq<Connection>, tails: seq<Tail>, k: nat)
    returns (lens: Progress)
    requires IsLog(parse, log) && Served(parse, log, conns, tails) && k <= |log|
    requires Opens(log, tails[|conns|].pos, Connection(k, |Stream(log, k)|))
    ensures IsProgress(log, lens) && |lens| == |log| && ShortOnlyWhereCut(log, conns, lens)
    ensures Serve(parse, log, tails[|conns|], Connection(k, |Stream(log, k)|)).out == Emitted(log, lens)
  {
    var before := ReplayAfterDisconnects(parse, log, conns, tails, |conns|);
    assert conns[..|conns|] == conns;
    var c := Connection(k, |Stream(log, k)|);
    ServeOne(parse, log, before, tails[|conns|], c);
    lens := Read(log, before, k, c.read);
    ReadToEnd(log, before, k);
    AllOfItLosesNothing(log, conns, before, k);
  }

  lemma AllOfItLosesNothing(log: Log, conns: seq<Connection>, lens: Progress, k: nat)
    requires IsProgress(log, lens) && ShortOnlyWhereCut(log, conns, lens) && k <= |lens|
    ensures ShortOnlyWhereCut(log, conns, Read(log, lens, k, |Stream(log, k)|))
  {
    var after := Read(log, lens, k, |Stream(log, k)|);
    ReadShape(log, lens, k, |Stream(log, k)|);
    StreamEnds(log, k);
    forall i | 0 <= i < |after| && after[i] < |log[i].Body()|
      ensures CutInSome(log, conns, i)
    {
      assert after[i] == lens[i];
    }
  }

  lemma {:induction false} StreamEnds(log: Log, j: nat)
    requires j <= |log|
    ensures CutLine(log, j, |Stream(log, j)|) == (|log|, 0)
    decreases |log| - j
  {
    if j < |log| {
      StreamEnds(log, j + 1);
    }
  }
}
