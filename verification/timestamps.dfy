/**
 The lines a pod log really has: those the kubelet stamps as RFC 3339 with up to nine
 digits of a second's fraction, and those that come without a stamp.
 */
module Timestamps {
  import opened Bytes
  import opened Transducer
  import opened Replay

  // ----- The shape of a stamp ---------------------------------------------------------

  predicate Digits(s: bytes, a: nat, b: nat) {
    b <= |s| && forall i :: a <= i < b ==> 48 <= s[i] <= 57
  }

  /** dddd-dd-ddTdd:dd:dd */
  predicate DateAndTime(s: bytes) {
    && |s| >= 19
    && Digits(s, 0, 4) && s[4] == 45 && Digits(s, 5, 7) && s[7] == 45 && Digits(s, 8, 10)
    && s[10] == 84
    && Digits(s, 11, 13) && s[13] == 58 && Digits(s, 14, 16) && s[16] == 58 && Digits(s, 17, 19)
  }

  /** From z on, Z or a signed dd:dd. */
  predicate Zone(s: bytes, z: nat) {
    || (|s| == z + 1 && s[z] == 90)
    || (|s| == z + 6 && s[z] in {43, 45} && Digits(s, z + 1, z + 3) && s[z + 3] == 58 && Digits(s, z + 4, z + 6))
  }

  /** With no fraction, or a point and f digits of one. */
  predicate IsStamp(s: bytes, f: nat) {
    && DateAndTime(s)
    && f <= 9
    && if f == 0 then Zone(s, 19) else |s| > 19 && s[19] == 46 && Digits(s, 20, 20 + f) && Zone(s, 20 + f)
  }

  /** Stamps are short, and each of their bytes could belong to one. */
  lemma StampIsHeld(s: bytes, f: nat)
    requires IsStamp(s, f)
    ensures 20 <= |s| <= MAX_TIMESTAMP_LEN
    ensures forall i :: 0 <= i < |s| ==> IsTimestampByte(s[i])
  {
    var z := if f == 0 then 19 else 20 + f;
    forall i | 0 <= i < |s| ensures IsTimestampByte(s[i]) {
      if i >= z {
        assert Zone(s, z);
      }
    }
  }

  /** A line of the kubelet's, whose timestamp the parser reads. */
  ghost predicate Stamped(parse: Parser, l: Line) {
    (exists f: nat :: IsStamp(l.stamp, f)) && parse(l.stamp) == Some(l.ts) && 10 !in l.content
  }

  /** Such lines, with times that never decrease, are a log. */
  lemma StampedLinesAreALog(parse: Parser, log: Log)
    requires forall i {:trigger log[i]} :: 0 <= i < |log| ==> Stamped(parse, log[i]) && log[i].ts >= 0
    requires forall i, j {:trigger log[i], log[j]} :: 0 <= i <= j < |log| ==> log[i].ts <= log[j].ts
    ensures IsLog(parse, log)
  {
    forall i | 0 <= i < |log| ensures LineOk(parse, log, i) {
      var f: nat :| IsStamp(log[i].stamp, f);
      StampIsHeld(log[i].stamp, f);
    }
  }

  // ----- A whole line -----------------------------------------------------------------

  /** Whether a line stamped ts is new to a stream that was reopened at p and has shown seen lines at p's time. */
  predicate New(p: Position, seen: nat, ts: Time) {
    p.last < ts || (p.last == ts && p.atLast <= seen)
  }

  /**
   A stamped line is published without its stamp when it is new, and not at all otherwise;
   either way the tailer is at a line start again, and has counted it.
   */
  lemma StampedLine(parse: Parser, s: Scan, l: Line)
    requires s.line == Header && s.hdr == [] && Stamped(parse, l)
    ensures var fed := Feed(parse, s, l.stamp + [32] + l.content + [10]);
            var p, upTo, seen := s.pos, s.filter.upTo, s.filter.seen;
            && fed.out == (if New(upTo, seen, l.ts) then l.content + [10] else [])
            && fed.scan.line == Header && fed.scan.hdr == []
            && fed.scan.pos == (if !New(upTo, seen, l.ts) then p
                                else if p.last == l.ts then Position(l.ts, p.atLast + 1) else Position(l.ts, 1))
            && fed.scan.filter == Filter(upTo, if upTo.last == l.ts then seen + 1 else seen)
  {
    var f: nat :| IsStamp(l.stamp, f);
    StampIsHeld(l.stamp, f);
    var start := l.stamp + [SPACE];
    ConcatAssoc(start, l.content, [NEWLINE]);
    ChunkingIndependence(parse, s, start, l.content + [NEWLINE]);
    FeedLineStart(parse, s, l);
    FeedBody(parse, AfterStamp(s, l.ts), l.content);
  }

  /** No part of the line that ends before a space is a timestamp. */
  ghost predicate Unstamped(parse: Parser, text: bytes) {
    10 !in text && forall k {:trigger text[..k]} :: 0 < k < |text| && text[k] == 32 ==> parse(text[..k]).None?
  }

  /** Any other line is published as it is, wherever the stream was reopened. */
  lemma UnstampedLine(parse: Parser, s: Scan, text: bytes)
    requires s.line == Header && s.hdr == [] && Unstamped(parse, text)
    ensures Feed(parse, s, text + [10]) == Fed(s, text + [10])
  {
    assert text[..0] == [];
    FeedUnstamped(parse, s, text, 0);
    assert text[0..] == text;
  }

  lemma SplitAt(text: bytes, n: nat)
    requires n < |text|
    ensures (text[n..] + [10])[0] == text[n] && (text[n..] + [10])[1..] == text[n + 1..] + [10]
    ensures text[..n] + [text[n]] == text[..n + 1]
    ensures text[..n + 1] + (text[n + 1..] + [10]) == text + [10]
  {}

  /** A byte of the line that is not the end of a timestamp is held, or makes the line content. */
  lemma UnstampedStep(parse: Parser, s: Scan, text: bytes, n: nat)
    requires s.line == Header && s.hdr == [] && Unstamped(parse, text) && n < |text|
    ensures Step(parse, s.(hdr := text[..n]), text[n]) ==
            if IsTimestampByte(text[n]) && n < MAX_TIMESTAMP_LEN then Fed(s.(hdr := text[..n + 1]), [])
            else Fed(s.(line := Keep), text[..n + 1])
  {
    assert text[..n] + [text[n]] == text[..n + 1];
    assert text[n] in text;
  }

  /** After its first n bytes, all of them still held. */
  lemma {:induction false} FeedUnstamped(parse: Parser, s: Scan, text: bytes, n: nat)
    requires s.line == Header && s.hdr == [] && Unstamped(parse, text) && n <= |text|
    ensures Feed(parse, s.(hdr := text[..n]), text[n..] + [10]) == Fed(s, text + [10])
    decreases |text| - n
  {
    var held := s.(hdr := text[..n]);
    if n == |text| {
      assert text[n..] == [] && text[..n] == text;
      ConcatEmpty([10 as byte]);
      FeedOne(parse, held, 10);
    } else {
      SplitAt(text, n);
      UnstampedStep(parse, s, text, n);
      if IsTimestampByte(text[n]) && n < MAX_TIMESTAMP_LEN {
        FeedUnstamped(parse, s, text, n + 1);
      } else {
        FeedBody(parse, s.(line := Keep), text[n + 1..]);
      }
    }
  }

  // ----- A whole log ------------------------------------------------------------------

  /** What the pod's log has, line by line. */
  datatype Entry = WithStamp(line: Line) | Plain(text: bytes)
  {
    ghost predicate Ok(parse: Parser) {
      if WithStamp? then Stamped(parse, line) && line.ts >= 0 else Unstamped(parse, text)
    }

    function Sent(): bytes {
      if WithStamp? then line.stamp + [32] + line.content + [10] else text + [10]
    }

    function Wanted(): bytes {
      if WithStamp? then line.content + [10] else text + [10]
    }
  }

  function AllSent(log: seq<Entry>): bytes {
    if log == [] then [] else log[0].Sent() + AllSent(log[1..])
  }

  function Text(log: seq<Entry>): bytes {
    if log == [] then [] else log[0].Wanted() + Text(log[1..])
  }

  /** A tailer without a position publishes every line, stripped of the stamp it has. */
  lemma {:induction false} FirstReadPublishesAll(parse: Parser, log: seq<Entry>, s: Scan)
    requires forall i {:trigger log[i]} :: 0 <= i < |log| ==> log[i].Ok(parse)
    requires s.line == Header && s.hdr == [] && s.filter.upTo == Position(0, 0)
    ensures Feed(parse, s, AllSent(log)).out == Text(log)
    decreases |log|
  {
    if log != [] {
      if log[0].WithStamp? {
        StampedLine(parse, s, log[0].line);
      } else {
        UnstampedLine(parse, s, log[0].text);
      }
      ChunkingIndependence(parse, s, log[0].Sent(), AllSent(log[1..]));
      FirstReadPublishesAll(parse, log[1..], Feed(parse, s, log[0].Sent()).scan);
    }
  }
}
