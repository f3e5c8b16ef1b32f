/** The byte order of strings, and the least elements of finite sets. */
module Order {
  /** Negative, zero or positive, as a sorts before b, equals it or sorts after it. */
  function Compare(a: string, b: string): int {
    if a == b then 0
    else if a == [] then -1
    else if b == [] then 1
    else if a[0] < b[0] then -1
    else if a[0] > b[0] then 1
    else Compare(a[1..], b[1..])
  }

  predicate Less(a: string, b: string) {
    Compare(a, b) < 0
  }

  lemma {:induction false} CompareMirrors(a: string, b: string)
    ensures Compare(a, b) == -Compare(b, a)
    ensures Compare(a, b) == 0 <==> a == b
  {
    if a != [] && b != [] && a[0] == b[0] {
      CompareMirrors(a[1..], b[1..]);
      assert a == [a[0]] + a[1..] && b == [b[0]] + b[1..];
    }
  }

  lemma {:induction false} LessTransitive(a: string, b: string, c: string)
    requires Less(a, b) && Less(b, c)
    ensures Less(a, c)
  {
    if a != [] && b != [] && c != [] && a[0] == b[0] == c[0] {
      assert a[1..] != b[1..] && b[1..] != c[1..];
      LessTransitive(a[1..], b[1..], c[1..]);
    }
  }

  /** a and b agree on n characters, and then a ends or has the smaller one. */
  predicate PartsAt(a: string, b: string, n: nat) {
    n <= |a| && n < |b| && (forall i :: 0 <= i < n ==> a[i] == b[i]) && (n == |a| || a[n] < b[n])
  }

  /** Dictionary order. */
  ghost predicate Precedes(a: string, b: string) {
    exists n: nat :: PartsAt(a, b, n)
  }

  lemma PartsLater(a: string, b: string, n: nat)
    requires a != [] && b != [] && a[0] == b[0]
    ensures PartsAt(a, b, n + 1) <==> PartsAt(a[1..], b[1..], n)
    ensures !PartsAt(a, b, 0)
  {
    if PartsAt(a[1..], b[1..], n) {
      forall i | 0 <= i < n + 1 ensures a[i] == b[i] {
        assert i > 0 ==> a[i] == a[1..][i - 1] && b[i] == b[1..][i - 1];
      }
    }
  }

  lemma {:induction false} LessIsPrecedes(a: string, b: string)
    ensures Less(a, b) <==> Precedes(a, b)
  {
    if a == [] || b == [] || a[0] != b[0] {
      assert Less(a, b) ==> PartsAt(a, b, 0);
    } else {
      LessIsPrecedes(a[1..], b[1..]);
      assert a == [a[0]] + a[1..] && b == [b[0]] + b[1..];
      if Precedes(a, b) {
        var n: nat :| PartsAt(a, b, n);
        PartsLater(a, b, if n == 0 then 0 else n - 1);
      }
      if Precedes(a[1..], b[1..]) {
        var n: nat :| PartsAt(a[1..], b[1..], n);
        PartsLater(a, b, n);
      }
    }
  }

  ghost predicate IsOrder<T(!new)>(before: (T, T) -> bool) {
    && (forall a, b {:trigger before(a, b)} :: a != b ==> before(a, b) || before(b, a))
    && (forall a, b, c {:trigger before(a, b), before(b, c)} :: before(a, b) && before(b, c) ==> before(a, c))
  }

  ghost predicate IsLeast<T(!new)>(s: set<T>, before: (T, T) -> bool, a: T) {
    a in s && forall b {:trigger b in s} :: b in s && b != a ==> before(a, b)
  }

  /** A finite set has an element before all the others. */
  lemma {:induction false} LeastExists<T(!new)>(s: set<T>, before: (T, T) -> bool)
    requires s != {} && IsOrder(before)
    ensures exists a :: IsLeast(s, before, a)
    decreases s
  {
    var x :| x in s;
    var rest := s - {x};
    if rest != {} {
      LeastExists(rest, before);
      var y :| IsLeast(rest, before, y);
      var least := if before(x, y) then x else y;
      forall b | b in s && b != least ensures before(least, b) {
        assert b != x ==> b in rest;
      }
      assert IsLeast(s, before, least);
    } else {
      assert s == {x};
      assert IsLeast(s, before, x);
    }
  }
}
