/** The replay buffer of a log tailer: a bounded byte buffer that overwrites its oldest bytes. */
module Ring {
  import opened Bytes

  /** s read from index t round to index t again. */
  ghost function Rotated(s: bytes, t: nat): (r: bytes)
    requires t <= |s|
    ensures |r| == |s|
  {
    s[t..] + s[..t]
  }

  lemma OverwriteRotates(s: bytes, t: nat, b: byte)
    requires t < |s|
    ensures Rotated(s[t := b], (t + 1) % |s|) == Rotated(s, t)[1..] + [b]
  {
    if t + 1 == |s| {
      assert (t + 1) % |s| == 0;
    } else {
      assert (t + 1) % |s| == t + 1;
    }
  }

  lemma SlidesEnd(h: bytes, b: byte, n: nat)
    requires 1 <= n <= |h|
    ensures LastN(h + [b], n) == LastN(h, n)[1..] + [b]
  {}

  class RingBuffer {
    /** Every byte ever appended; the buffer keeps only the end of it. */
    ghost var history: bytes

    const capacity: nat
    const buf: array<byte>
    var used: nat            // bytes of buf in use; equals capacity once full
    var tail: nat            // next byte to overwrite once full
    var full: bool
    var totalWritten: nat
    var overflowed: bool

    /** What the fields say about the history, whatever totalWritten is. */
    ghost predicate HoldsEnd()
      reads this, buf
    {
      && capacity == buf.Length >= 1
      && used == Min(|history|, capacity)
      && full == (used == capacity)
      && overflowed == (|history| > capacity)
      && tail < capacity
      && (!full ==> tail == 0 && buf[..used] == history)
      && (full ==> Rotated(buf[..], tail) == LastN(history, capacity))
    }

    ghost predicate Valid()
      reads this, buf
    {
      HoldsEnd() && totalWritten == |history|
    }

    constructor (wanted: int)
      ensures Valid() && fresh(buf)
      ensures history == []
      ensures capacity == if wanted <= 0 then 1 else wanted
    {
      var c := if wanted <= 0 then 1 else wanted;
      capacity := c;
      buf := new byte[c];
      used, tail, full, totalWritten, overflowed := 0, 0, false, 0, false;
      history := [];
    }

    method AppendByte(b: byte)
      requires HoldsEnd()
      modifies this, buf
      ensures HoldsEnd() && history == old(history) + [b]
      ensures totalWritten == old(totalWritten)
    {
      ghost var was := buf[..];
      history := history + [b];
      if !full {
        buf[used] := b;
        used := used + 1;
        assert buf[..used] == was[..used - 1] + [b];
        if used == capacity {
          full, tail := true, 0;
          assert buf[..used] == buf[..];
        }
        return;
      }
      OverwriteRotates(was, tail, b);
      SlidesEnd(old(history), b, capacity);
      buf[tail] := b;
      assert buf[..] == was[tail := b];
      tail := (tail + 1) % capacity;
      overflowed := true;
    }

    method Append(p: bytes) returns (total: nat)
      requires Valid()
      modifies this, buf
      ensures Valid() && history == old(history) + p
      ensures total == |history|
    {
      ghost var start := history;
      for i := 0 to |p|
        invariant HoldsEnd() && history == start + p[..i]
        invariant totalWritten == |start|
      {
        AppendByte(p[i]);
        assert p[..i + 1] == p[..i] + [p[i]];
      }
      assert p[..|p|] == p;
      totalWritten := totalWritten + |p|;
      return totalWritten;
    }

    /** The end of the history, where it starts, and whether anything was lost before it. */
    method Snapshot() returns (out: bytes, startOffset: nat, lost: bool)
      requires Valid()
      ensures out == LastN(history, capacity)
      ensures startOffset == |history| - |out| && history[startOffset..] == out
      ensures lost <==> |history| > capacity
    {
      if used == 0 {
        return [], totalWritten, overflowed;
      }
      out := if !full then buf[..used] else buf[tail..] + buf[..tail];
      assert full ==> out == Rotated(buf[..], tail);
      return out, totalWritten - used, overflowed;
    }
  }
}
