/** Bytes, optional values and the few sequence facts several modules share. */
module Bytes {
  newtype byte = b: int | 0 <= b < 256
  type bytes = seq<byte>

  datatype Option<+T> = None | Some(value: T)

  function Min(a: int, b: int): int {
    if a <= b then a else b
  }

  /** The last n elements of s, or all of s when it is shorter. */
  function LastN<T>(s: seq<T>, n: nat): (r: seq<T>)
    ensures |r| == Min(|s|, n)
  {
    if |s| <= n then s else s[|s| - n..]
  }

  function Flatten<T>(parts: seq<seq<T>>): seq<T> {
    if parts == [] then [] else parts[0] + Flatten(parts[1..])
  }

  lemma ConcatAssoc<T>(a: seq<T>, b: seq<T>, c: seq<T>)
    ensures a + b + c == a + (b + c)
  {}

  lemma ConcatEmpty<T>(a: seq<T>)
    ensures a + [] == a && [] + a == a
  {}

  lemma ConcatTail<T>(a: seq<T>, b: seq<T>)
    requires a != []
    ensures (a + b)[0] == a[0] && (a + b)[1..] == a[1..] + b
  {}

  lemma {:induction false} FlattenAppend<T>(a: seq<seq<T>>, b: seq<seq<T>>)
    ensures Flatten(a + b) == Flatten(a) + Flatten(b)
  {
    if a == [] {
      ConcatEmpty(b);
    } else {
      ConcatTail(a, b);
      FlattenAppend(a[1..], b);
      ConcatAssoc(a[0], Flatten(a[1..]), Flatten(b));
    }
  }

  lemma FlattenSnoc<T>(a: seq<seq<T>>, x: seq<T>)
    ensures Flatten(a + [x]) == Flatten(a) + x
  {
    FlattenAppend(a, [x]);
    assert Flatten([x]) == x + Flatten([x][1..]) == x;
  }

  /** Flattening a prefix of the parts gives a prefix of the whole. */
  lemma FlattenPrefix<T>(parts: seq<seq<T>>, n: nat)
    requires n <= |parts|
    ensures Flatten(parts[..n]) <= Flatten(parts)
    ensures Flatten(parts) == Flatten(parts[..n]) + Flatten(parts[n..])
  {
    FlattenAppend(parts[..n], parts[n..]);
    assert parts == parts[..n] + parts[n..];
  }

  /** The places below n where a flag is set. */
  ghost function SetBelow(flags: seq<bool>, n: nat): set<int>
    requires n <= |flags|
  {
    set i | 0 <= i < n && flags[i]
  }

  /** Counting them goes on one place at a time. */
  lemma SetBelowNext(flags: seq<bool>, n: nat)
    requires n < |flags|
    ensures |SetBelow(flags, n + 1)| == |SetBelow(flags, n)| + if flags[n] then 1 else 0
  {
    var before := SetBelow(flags, n);
    if flags[n] {
      assert SetBelow(flags, n + 1) == before + {n};
    } else {
      assert SetBelow(flags, n + 1) == before;
    }
  }
}
