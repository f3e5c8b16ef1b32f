/**
 What a log tailer does to the bytes it reads, one byte at a time: it reads the
 timestamp at a line start, decides whether the line is new, strips the timestamp and
 passes the rest of a new line through. The tailer itself works on whole chunks
 (tailer.dfy); this is the specification it is proved against.
 */
module Transducer {
  import opened Bytes

  /** Instants; ZERO_TIME is the zero time, which no line carries before it. */
  type Time = int
  const ZERO_TIME: Time := 0

  /** The RFC 3339 parser, kept as an unknown partial function on header bytes. */
  type Parser = bytes -> Option<Time>

  const NEWLINE: byte := 10
  const SPACE: byte := 32
  const MAX_TIMESTAMP_LEN := 35

  /** '0'..'9', '-', ':', '.', 'T', 'Z' and '+'. */
  predicate IsTimestampByte(c: byte) {
    48 <= c <= 57 || c in {45, 58, 46, 84, 90, 43}
  }

  // ----- Position and replay filter ---------------------------------------------------

  /** The last published line: its timestamp, and how many lines in a row carried it. */
  datatype Position = Position(last: Time, atLast: nat)
  {
    function Advance(ts: Time): Position {
      if ts == last then Position(last, atLast + 1) else Position(ts, 1)
    }
  }

  const START := Position(ZERO_TIME, 0)

  /** Drops what a reopened stream replays: everything up to upTo. */
  datatype Filter = Filter(upTo: Position, seen: nat)
  {
    predicate Keeps(ts: Time) {
      ts > upTo.last || (ts == upTo.last && seen + 1 > upTo.atLast)
    }

    function Saw(ts: Time): Filter {
      if ts == upTo.last then Filter(upTo, seen + 1) else this
    }
  }

  // ----- Byte at a time ---------------------------------------------------------------

  datatype LineState = Header | Keep | Drop

  datatype Scan = Scan(line: LineState, hdr: bytes, pos: Position, filter: Filter)
  {
    /** A header being read is short, and every byte of it could belong to a timestamp. */
    predicate Valid() {
      && |hdr| <= MAX_TIMESTAMP_LEN
      && (line != Header ==> hdr == [])
      && forall i :: 0 <= i < |hdr| ==> IsTimestampByte(hdr[i])
    }
  }

  /** The state in which a stream opened at position p starts. */
  function AtOpen(p: Position): Scan {
    Scan(Header, [], p, Filter(p, 0))
  }

  datatype Fed = Fed(scan: Scan, out: bytes)

  /** The end of the header hdr, stamped ts. */
  function AfterStamp(s: Scan, ts: Time): Scan {
    if s.filter.Keeps(ts)
    then Scan(Keep, [], s.pos.Advance(ts), s.filter.Saw(ts))
    else Scan(Drop, [], s.pos, s.filter.Saw(ts))
  }

  predicate EndsStamp(parse: Parser, s: Scan, c: byte) {
    c == SPACE && s.hdr != [] && parse(s.hdr).Some?
  }

  function Step(parse: Parser, s: Scan, c: byte): Fed {
    if s.line == Header then
      if EndsStamp(parse, s, c) then Fed(AfterStamp(s, parse(s.hdr).value), [])
      else if IsTimestampByte(c) && |s.hdr| < MAX_TIMESTAMP_LEN then Fed(s.(hdr := s.hdr + [c]), [])
      else Fed(s.(hdr := [], line := if c == NEWLINE then Header else Keep), s.hdr + [c])
    else
      Fed(s.(line := if c == NEWLINE then Header else s.line), if s.line == Keep then [c] else [])
  }

  function Feed(parse: Parser, s: Scan, data: bytes): Fed
    decreases |data|
  {
    if data == [] then Fed(s, [])
    else
      var one := Step(parse, s, data[0]);
      var rest := Feed(parse, one.scan, data[1..]);
      Fed(rest.scan, one.out + rest.out)
  }

  /** However a byte string is split, what comes out and what is remembered is the same. */
  lemma {:induction false} ChunkingIndependence(parse: Parser, s: Scan, a: bytes, b: bytes)
    ensures Feed(parse, s, a + b) ==
            Fed(Feed(parse, Feed(parse, s, a).scan, b).scan,
                Feed(parse, s, a).out + Feed(parse, Feed(parse, s, a).scan, b).out)
    decreases |a|
  {
    if a == [] {
      ConcatEmpty(b);
    } else {
      var one := Step(parse, s, a[0]);
      ConcatTail(a, b);
      ChunkingIndependence(parse, one.scan, a[1..], b);
      var rest := Feed(parse, one.scan, a[1..]);
      ConcatAssoc(one.out, rest.out, Feed(parse, rest.scan, b).out);
    }
  }

  function FeedAll(parse: Parser, s: Scan, chunks: seq<bytes>): Fed
    decreases |chunks|
  {
    if chunks == [] then Fed(s, [])
    else
      var one := Feed(parse, s, chunks[0]);
      var rest := FeedAll(parse, one.scan, chunks[1..]);
      Fed(rest.scan, one.out + rest.out)
  }

  /** Any list of chunks is worth its concatenation. */
  lemma {:induction false} AnySplit(parse: Parser, s: Scan, chunks: seq<bytes>)
    ensures FeedAll(parse, s, chunks) == Feed(parse, s, Flatten(chunks))
    decreases |chunks|
  {
    if chunks != [] {
      AnySplit(parse, Feed(parse, s, chunks[0]).scan, chunks[1..]);
      ChunkingIndependence(parse, s, chunks[0], Flatten(chunks[1..]));
    }
  }

  lemma {:induction false} ScanStaysValid(parse: Parser, s: Scan, data: bytes)
    requires s.Valid()
    ensures Feed(parse, s, data).scan.Valid() && |Feed(parse, s, data).scan.hdr| <= 35
    decreases |data|
  {
    if data != [] {
      ScanStaysValid(parse, Step(parse, s, data[0]).scan, data[1..]);
    }
  }

  // ----- What becomes of each byte ----------------------------------------------------

  datatype Fate = Published | Replayed | Stamp | Held

  /** The bytes of data whose fate is f, in order. */
  function Select(data: bytes, fates: seq<Fate>, f: Fate): bytes
    requires |data| == |fates|
  {
    if data == [] then []
    else (if fates[0] == f then [data[0]] else []) + Select(data[1..], fates[1..], f)
  }

  function Repeat(f: Fate, n: nat): (r: seq<Fate>)
    ensures |r| == n && forall i :: 0 <= i < n ==> r[i] == f
  {
    seq(n, _ => f)
  }

  /** The fate of every byte of the header held in s and then of data. */
  function Fates(parse: Parser, s: Scan, data: bytes): (r: seq<Fate>)
    requires s.Valid()
    ensures |r| == |s.hdr| + |data|
    decreases |data|
  {
    if data == [] then Repeat(Held, |s.hdr|)
    else
      var c, next := data[0], Step(parse, s, data[0]).scan;
      var rest := Fates(parse, next, data[1..]);
      if s.line != Header then [if s.line == Keep then Published else Replayed] + rest
      else if next == s.(hdr := s.hdr + [c]) then rest
      else Repeat(if EndsStamp(parse, s, c) then Stamp else Published, |s.hdr| + 1) + rest
  }

  lemma {:induction false} SelectConcat(a: bytes, fa: seq<Fate>, b: bytes, fb: seq<Fate>, f: Fate)
    requires |a| == |fa| && |b| == |fb|
    ensures Select(a + b, fa + fb, f) == Select(a, fa, f) + Select(b, fb, f)
  {
    if a == [] {
      ConcatEmpty(b);
      ConcatEmpty(fb);
    } else {
      ConcatTail(a, b);
      ConcatTail(fa, fb);
      SelectConcat(a[1..], fa[1..], b, fb, f);
      ConcatAssoc(if fa[0] == f then [a[0]] else [], Select(a[1..], fa[1..], f), Select(b, fb, f));
    }
  }

  lemma {:induction false} SelectUniform(a: bytes, f: Fate, g: Fate)
    ensures Select(a, Repeat(f, |a|), g) == if f == g then a else []
  {
    if a != [] {
      SelectUniform(a[1..], f, g);
      assert Repeat(f, |a|)[1..] == Repeat(f, |a| - 1);
    }
  }

  lemma SelectRun(done: bytes, f: Fate, rest: bytes, fates: seq<Fate>, g: Fate)
    requires |rest| == |fates|
    ensures Select(done + rest, Repeat(f, |done|) + fates, g) == (if f == g then done else []) + Select(rest, fates, g)
  {
    SelectConcat(done, Repeat(f, |done|), rest, fates, g);
    SelectUniform(done, f, g);
  }

  /** A step that decides the fate of the held header and of c. */
  lemma DecidedStep(parse: Parser, s: Scan, data: bytes, g: Fate)
    requires s.Valid() && data != []
    requires var next := Step(parse, s, data[0]).scan;
             next.Valid() && !(s.line == Header && next == s.(hdr := s.hdr + [data[0]]))
    ensures var c := data[0];
            var next := Step(parse, s, c).scan;
            var f := if s.line == Header then (if EndsStamp(parse, s, c) then Stamp else Fate.Published)
                     else if s.line == Keep then Fate.Published else Replayed;
            && next.hdr == []
            && Step(parse, s, c).out == (if f == Fate.Published then s.hdr + [c] else [])
            && Select(s.hdr + data, Fates(parse, s, data), g) ==
               (if f == g then s.hdr + [c] else []) + Select(data[1..], Fates(parse, next, data[1..]), g)
  {
    var c := data[0];
    var done, rest := s.hdr + [c], data[1..];
    var next := Step(parse, s, c).scan;
    var f := if s.line == Header then (if EndsStamp(parse, s, c) then Stamp else Fate.Published)
             else if s.line == Keep then Fate.Published else Replayed;
    assert s.hdr + data == done + rest;
    assert Fates(parse, s, data) == Repeat(f, |done|) + Fates(parse, next, rest);
    SelectRun(done, f, rest, Fates(parse, next, rest), g);
  }

  /** A step that only adds c to the held header. */
  lemma HeldStep(parse: Parser, s: Scan, data: bytes, g: Fate)
    requires s.Valid() && data != [] && s.line == Header
    requires Step(parse, s, data[0]).scan == s.(hdr := s.hdr + [data[0]])
    ensures var next := Step(parse, s, data[0]).scan;
            && next.Valid()
            && Step(parse, s, data[0]).out == []
            && Select(s.hdr + data, Fates(parse, s, data), g) ==
               Select(next.hdr + data[1..], Fates(parse, next, data[1..]), g)
  {
    assert s.hdr + data == s.hdr + [data[0]] + data[1..];
  }

  lemma NothingRead(parse: Parser, s: Scan, g: Fate)
    requires s.Valid()
    ensures Select(s.hdr + [], Fates(parse, s, []), g) == if g == Held then s.hdr else []
  {
    ConcatEmpty(s.hdr);
    SelectUniform(s.hdr, Held, g);
  }

  /**
   Nothing is invented and nothing vanishes: each byte of the held header and of the data
   is published, dropped as a replay, stripped as part of a timestamp or still held, and
   the published and the held bytes are exactly the output and the new header, in order.
   */
  lemma {:induction false} EveryByteAccountedFor(parse: Parser, s: Scan, data: bytes)
    requires s.Valid()
    ensures var all, fates, fed := s.hdr + data, Fates(parse, s, data), Feed(parse, s, data);
            && Select(all, fates, Fate.Published) == fed.out
            && Select(all, fates, Held) == fed.scan.hdr
            && fed.scan.Valid()
    decreases |data|
  {
    ScanStaysValid(parse, s, data);
    if data == [] {
      NothingRead(parse, s, Fate.Published);
      NothingRead(parse, s, Held);
    } else {
      var next := Step(parse, s, data[0]).scan;
      EveryByteAccountedFor(parse, next, data[1..]);
      ConcatEmpty(data[1..]);
      if s.line == Header && next == s.(hdr := s.hdr + [data[0]]) {
        HeldStep(parse, s, data, Fate.Published);
        HeldStep(parse, s, data, Held);
      } else {
        DecidedStep(parse, s, data, Fate.Published);
        DecidedStep(parse, s, data, Held);
      }
    }
  }
}
