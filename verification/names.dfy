/** Names the platform generates: decimal numbers, artifact paths, child and try names. */
module Names {
  import opened Order

  // ----- Decimal numbers --------------------------------------------------------------

  function Digit(d: nat): (c: char)
    requires d < 10
    ensures c != '-' && c != '/' && c != 'r'
  {
    ['0', '1', '2', '3', '4', '5', '6', '7', '8', '9'][d]
  }

  predicate IsDigit(c: char) {
    '0' <= c <= '9'
  }

  function Decimal(n: nat): (s: string)
    ensures |s| >= 1 && forall i :: 0 <= i < |s| ==> IsDigit(s[i])
  {
    if n < 10 then [Digit(n)] else Decimal(n / 10) + [Digit(n % 10)]
  }

  /** Different numbers look different. */
  lemma {:induction false} DecimalInjective(m: nat, n: nat)
    requires Decimal(m) == Decimal(n)
    ensures m == n
  {
    var s, t := Decimal(m), Decimal(n);
    assert s[|s| - 1] == Digit(m % 10) && t[|t| - 1] == Digit(n % 10);
    if m >= 10 && n >= 10 {
      assert s[..|s| - 1] == Decimal(m / 10) && t[..|t| - 1] == Decimal(n / 10);
      DecimalInjective(m / 10, n / 10);
    }
  }

  /** The number that a row of digits stands for. */
  function Value(s: string): int {
    if s == "" then 0 else 10 * Value(s[..|s| - 1]) + (s[|s| - 1] as int - '0' as int)
  }

  /** A decimal reads as its number, and begins with no zero unless it is one. */
  lemma {:induction false} DecimalReads(n: nat)
    ensures Value(Decimal(n)) == n
    ensures n > 0 ==> Decimal(n)[0] != '0'
  {
    var s := Decimal(n);
    if n < 10 {
      assert s[..|s| - 1] == "" && Value(s) == s[0] as int - '0' as int;
    } else {
      DecimalReads(n / 10);
      assert s[..|s| - 1] == Decimal(n / 10);
    }
  }

  // ----- Fields separated by a character ----------------------------------------------

  /** How many characters come before the first sep. */
  function Before(s: string, sep: char): nat {
    if s == [] || s[0] == sep then 0 else 1 + Before(s[1..], sep)
  }

  /** How many characters come after the last sep. */
  function After(s: string, sep: char): nat {
    if s == [] || s[|s| - 1] == sep then 0 else 1 + After(s[..|s| - 1], sep)
  }

  lemma {:induction false} BeforeFirst(a: string, b: string, sep: char)
    requires sep !in a
    ensures Before(a + [sep] + b, sep) == |a|
  {
    if a != [] {
      assert (a + [sep] + b)[1..] == a[1..] + [sep] + b;
      BeforeFirst(a[1..], b, sep);
    }
  }

  lemma {:induction false} AfterLast(a: string, b: string, sep: char)
    requires sep !in b
    ensures After(a + [sep] + b, sep) == |b|
  {
    var s := a + [sep] + b;
    if b == [] {
      assert s[|s| - 1] == sep;
    } else {
      assert s[..|s| - 1] == a + [sep] + b[..|b| - 1];
      assert s[|s| - 1] == b[|b| - 1];
      AfterLast(a, b[..|b| - 1], sep);
    }
  }

  /** Cutting both at the same place. */
  lemma SameCut(a: string, b: string, x: string, y: string, sep: char)
    requires a + [sep] + b == x + [sep] + y && |a| == |x|
    ensures a == x && b == y
  {
    var s, t := a + [sep] + b, x + [sep] + y;
    assert s[..|a|] == a && t[..|a|] == x;
    assert s[|a| + 1..] == b && t[|a| + 1..] == y;
  }

  /** A field without the separator, and what follows it, can be told apart. */
  lemma SplitFirst(a: string, b: string, x: string, y: string, sep: char)
    requires sep !in a && sep !in x
    requires a + [sep] + b == x + [sep] + y
    ensures a == x && b == y
  {
    BeforeFirst(a, b, sep);
    BeforeFirst(x, y, sep);
    SameCut(a, b, x, y, sep);
  }

  /** So can a last field without the separator, and what precedes it. */
  lemma SplitLast(a: string, b: string, x: string, y: string, sep: char)
    requires sep !in b && sep !in y
    requires a + [sep] + b == x + [sep] + y
    ensures a == x && b == y
  {
    AfterLast(a, b, sep);
    AfterLast(x, y, sep);
    assert |a + [sep] + b| == |x + [sep] + y|;
    SameCut(a, b, x, y, sep);
  }

  // ----- Artifacts of parallel workers ------------------------------------------------

  /** Worker i's artifact among the run's. */
  function ArtifactPath(i: nat, path: string): string {
    "workers/" + (Decimal(i) + ['/'] + ("artifacts/" + path))
  }

  /** Two workers' artifacts never share a path, nor do two of one worker's. */
  lemma ArtifactPathInjective(i: nat, p: string, j: nat, q: string)
    requires ArtifactPath(i, p) == ArtifactPath(j, q)
    ensures i == j && p == q
  {
    var a, b := ArtifactPath(i, p), ArtifactPath(j, q);
    assert a[8..] == Decimal(i) + ['/'] + ("artifacts/" + p);
    assert b[8..] == Decimal(j) + ['/'] + ("artifacts/" + q);
    SplitFirst(Decimal(i), "artifacts/" + p, Decimal(j), "artifacts/" + q, '/');
    DecimalInjective(i, j);
    assert ("artifacts/" + p)[10..] == p && ("artifacts/" + q)[10..] == q;
  }

  // ----- Names within the limit -------------------------------------------------------

  const MAX_LEN: nat := 63
  const HASH_LEN: nat := 8

  function TrimRight(s: string): (r: string)
    ensures r <= s && (r == "" || r[|r| - 1] !in "-.")
  {
    if s == "" || s[|s| - 1] !in "-." then s else TrimRight(s[..|s| - 1])
  }

  /** A name that fits is kept; a longer one is cut and ends in its hash. */
  function Bounded(name: string, hash: string): (r: string)
    requires |hash| >= HASH_LEN
    ensures |r| <= MAX_LEN
    ensures |name| <= MAX_LEN ==> r == name
    ensures |name| > MAX_LEN ==> |r| > HASH_LEN && r[|r| - HASH_LEN..] == hash[..HASH_LEN]
  {
    if |name| <= MAX_LEN then name else TrimRight(name[..MAX_LEN - HASH_LEN - 1]) + "-" + hash[..HASH_LEN]
  }

  /**
   A longer name keeps as many of its first 54 characters as do not end in dashes and dots,
   and a dash and the first eight characters of the hash follow.
   */
  lemma BoundedMeaning(name: string, hash: string) returns (k: nat)
    requires |hash| >= 8
    ensures |name| <= 63 ==> Bounded(name, hash) == name
    ensures |name| > 63 ==>
              && k <= 54 && Bounded(name, hash) == name[..k] + "-" + hash[..8]
              && (k > 0 ==> name[k - 1] !in "-.") && forall j :: k <= j < 54 ==> name[j] in "-."
  {
    if |name| > 63 {
      k := TrimRightKeeps(name[..54]);
      assert name[..54][..k] == name[..k];
      forall j | k <= j < 54 ensures name[j] in "-." {
        assert name[..54][j] == name[j];
      }
    } else {
      k := 0;
    }
  }

  lemma {:induction false} TrimRightKeeps(s: string) returns (k: nat)
    ensures k <= |s| && TrimRight(s) == s[..k] && forall j :: k <= j < |s| ==> s[j] in "-."
  {
    if s == "" || s[|s| - 1] !in "-." {
      assert s[..|s|] == s;
      return |s|;
    }
    k := TrimRightKeeps(s[..|s| - 1]);
    assert s[..|s| - 1][..k] == s[..k];
    forall j | k <= j < |s| ensures s[j] in "-." {
      assert j < |s| - 1 ==> s[..|s| - 1][j] == s[j];
    }
  }

  // ----- Children of composite runs ---------------------------------------------------

  function Stem(parent: string, step: nat, testRef: string): string {
    parent + "-s" + (Decimal(step) + ['-'] + testRef)
  }

  function ChildName(parent: string, step: nat, testRef: string, index: nat): string {
    Stem(parent, step, testRef) + ['-'] + Decimal(index)
  }

  /** The name of a try before it is bounded; the first try has its child's name. */
  function TryName(parent: string, step: nat, testRef: string, index: nat, attempt: nat): string {
    if attempt == 0 then ChildName(parent, step, testRef, index)
    else ChildName(parent, step, testRef, index) + ['-'] + (['r'] + Decimal(attempt))
  }

  lemma NoDash(n: nat)
    ensures '-' !in Decimal(n) && '-' !in ['r'] + Decimal(n)
    ensures Decimal(n)[0] != 'r' && (['r'] + Decimal(n))[0] == 'r'
  {
    var s := Decimal(n);
    assert forall i :: 0 <= i < |s| ==> IsDigit(s[i]);
  }

  lemma StemInjective(parent: string, step: nat, testRef: string, step2: nat, testRef2: string)
    requires Stem(parent, step, testRef) == Stem(parent, step2, testRef2)
    ensures step == step2 && testRef == testRef2
  {
    var a, b := Stem(parent, step, testRef), Stem(parent, step2, testRef2);
    assert a[|parent| + 2..] == Decimal(step) + ['-'] + testRef;
    assert b[|parent| + 2..] == Decimal(step2) + ['-'] + testRef2;
    NoDash(step);
    NoDash(step2);
    SplitFirst(Decimal(step), testRef, Decimal(step2), testRef2, '-');
    DecimalInjective(step, step2);
  }

  lemma ChildNameInjective(parent: string, step: nat, testRef: string, index: nat, step2: nat, testRef2: string, index2: nat)
    requires ChildName(parent, step, testRef, index) == ChildName(parent, step2, testRef2, index2)
    ensures step == step2 && testRef == testRef2 && index == index2
  {
    NoDash(index);
    NoDash(index2);
    SplitLast(Stem(parent, step, testRef), Decimal(index), Stem(parent, step2, testRef2), Decimal(index2), '-');
    DecimalInjective(index, index2);
    StemInjective(parent, step, testRef, step2, testRef2);
  }

  /** A first try's name ends in a number, that of a later one in r and a number. */
  lemma FirstIsNoRetry(parent: string, step: nat, testRef: string, index: nat, name: string, attempt: nat)
    ensures ChildName(parent, step, testRef, index) != name + ['-'] + (['r'] + Decimal(attempt))
  {
    NoDash(index);
    NoDash(attempt);
    if ChildName(parent, step, testRef, index) == name + ['-'] + (['r'] + Decimal(attempt)) {
      SplitLast(Stem(parent, step, testRef), Decimal(index), name, ['r'] + Decimal(attempt), '-');
    }
  }

  /**
   The tries of one parent have different names, whatever dashes, digits or endings like -r1 the names
   of its Tests hold.
   */
  lemma TryNameInjective(parent: string, step: nat, testRef: string, index: nat, attempt: nat,
                         step2: nat, testRef2: string, index2: nat, attempt2: nat)
    requires TryName(parent, step, testRef, index, attempt) == TryName(parent, step2, testRef2, index2, attempt2)
    ensures step == step2 && testRef == testRef2 && index == index2 && attempt == attempt2
  {
    var c, c2 := ChildName(parent, step, testRef, index), ChildName(parent, step2, testRef2, index2);
    if attempt == 0 && attempt2 > 0 {
      FirstIsNoRetry(parent, step, testRef, index, c2, attempt2);
    } else if attempt > 0 && attempt2 == 0 {
      FirstIsNoRetry(parent, step2, testRef2, index2, c, attempt);
    } else if attempt > 0 {
      NoDash(attempt);
      NoDash(attempt2);
      SplitLast(c, ['r'] + Decimal(attempt), c2, ['r'] + Decimal(attempt2), '-');
      assert (['r'] + Decimal(attempt))[1..] == Decimal(attempt) && (['r'] + Decimal(attempt2))[1..] == Decimal(attempt2);
      DecimalInjective(attempt, attempt2);
      ChildNameInjective(parent, step, testRef, index, step2, testRef2, index2);
    } else {
      ChildNameInjective(parent, step, testRef, index, step2, testRef2, index2);
    }
  }

  /** So the names as given, where they fit, are different too. */
  lemma BoundedTryNameInjective(parent: string, step: nat, testRef: string, index: nat, attempt: nat, hash: string,
                                step2: nat, testRef2: string, index2: nat, attempt2: nat, hash2: string)
    requires |hash| >= HASH_LEN && |hash2| >= HASH_LEN
    requires |TryName(parent, step, testRef, index, attempt)| <= MAX_LEN
    requires |TryName(parent, step2, testRef2, index2, attempt2)| <= MAX_LEN
    requires Bounded(TryName(parent, step, testRef, index, attempt), hash)
             == Bounded(TryName(parent, step2, testRef2, index2, attempt2), hash2)
    ensures step == step2 && testRef == testRef2 && index == index2 && attempt == attempt2
  {
    TryNameInjective(parent, step, testRef, index, attempt, step2, testRef2, index2, attempt2);
  }

  // ----- Keys of log chunks -----------------------------------------------------------

  function Power10(w: nat): (p: nat)
    ensures p >= 1
  {
    if w == 0 then 1 else 10 * Power10(w - 1)
  }

  /** The last w digits of n. */
  function Digits(n: nat, w: nat): (s: string)
    ensures |s| == w
  {
    if w == 0 then "" else Digits(n / 10, w - 1) + [Digit(n % 10)]
  }

  /** A number written with at least w digits. */
  function Padded(n: nat, w: nat): string {
    if n < Power10(w) then Digits(n, w) else Decimal(n)
  }

  function LogChunk(prefix: string, n: nat): string {
    prefix + "logs/" + (Padded(n, 8) + ".log")
  }

  lemma {:induction false} LessAppend(a: string, b: string, x: string, y: string)
    requires |a| == |b|
    ensures Less(a + x, b + y) <==> Less(a, b) || (a == b && Less(x, y))
  {
    if a == "" {
      assert a + x == x && b + y == y;
    } else {
      assert (a + x)[1..] == a[1..] + x && (b + y)[1..] == b[1..] + y;
      LessAppend(a[1..], b[1..], x, y);
      CompareMirrors(a, b);
      CompareMirrors(a + x, b + y);
      assert a == [a[0]] + a[1..] && b == [b[0]] + b[1..];
    }
  }

  /** Padded numbers sort as numbers. */
  lemma {:induction false} DigitsOrder(m: nat, n: nat, w: nat)
    requires m < Power10(w) && n < Power10(w)
    ensures Less(Digits(m, w), Digits(n, w)) <==> m < n
    ensures Digits(m, w) == Digits(n, w) <==> m == n
  {
    if w > 0 {
      DigitsOrder(m / 10, n / 10, w - 1);
      var a, b := Digits(m / 10, w - 1), Digits(n / 10, w - 1);
      LessAppend(a, b, [Digit(m % 10)], [Digit(n % 10)]);
      assert Digits(m, w)[..w - 1] == a && Digits(n, w)[..w - 1] == b;
      assert Digits(m, w)[w - 1] == Digit(m % 10) && Digits(n, w)[w - 1] == Digit(n % 10);
      assert Less([Digit(m % 10)], [Digit(n % 10)]) <==> m % 10 < n % 10;
    }
  }

  /** How many digits a chunk's number is written with. */
  function Width(n: nat): nat {
    |Padded(n, 8)|
  }

  /** The number that is left when the last k digits are dropped. */
  function WithoutLast(n: nat, k: nat): nat {
    if k == 0 then n else WithoutLast(n / 10, k - 1)
  }

  lemma {:induction false} DigitsPrefix(n: nat, w: nat, k: nat)
    ensures Digits(n, w + k)[..w] == Digits(WithoutLast(n, k), w)
  {
    if k > 0 {
      DigitsPrefix(n / 10, w, k - 1);
    }
  }

  lemma {:induction false} FirstDigitsFit(n: nat, w: nat, k: nat)
    requires n < Power10(w + k)
    ensures WithoutLast(n, k) < Power10(w)
  {
    if k > 0 {
      assert Power10(w + k) == 10 * Power10(w + k - 1);
      FirstDigitsFit(n / 10, w, k - 1);
    }
  }

  /** A number without padding has its digits, and no zero in front. */
  lemma {:induction false} DecimalIsDigits(n: nat)
    ensures Decimal(n) == Digits(n, |Decimal(n)|) && n < Power10(|Decimal(n)|)
    ensures n > 0 ==> Power10(|Decimal(n)| - 1) <= n
  {
    if n >= 10 {
      DecimalIsDigits(n / 10);
    } else {
      assert Digits(n, 1) == Digits(n / 10, 0) + [Digit(n % 10)];
      assert Power10(1) == 10 * Power10(0);
    }
  }

  lemma {:induction false} PowersGrow(v: nat, w: nat)
    ensures v < w ==> 10 * Power10(v) <= Power10(w)
    decreases w
  {
    if v + 1 < w {
      PowersGrow(v, w - 1);
    }
  }

  lemma PaddedIsDigits(n: nat)
    ensures Width(n) >= 8 && Padded(n, 8) == Digits(n, Width(n)) && n < Power10(Width(n))
    ensures Width(n) > 8 ==> Power10(Width(n) - 1) <= n
  {
    DecimalIsDigits(n);
    PowersGrow(|Decimal(n)|, 8);
  }

  lemma WidthGrows(m: nat, n: nat)
    requires m <= n
    ensures Width(m) <= Width(n)
  {
    PaddedIsDigits(m);
    PaddedIsDigits(n);
    PowersGrow(Width(n), Width(m) - 1);
  }

  /** Before the same ending, which sorts before any digit. */
  lemma BeginningOrder(a: string, b: string)
    requires |a| <= |b| && forall i :: 0 <= i < |b| ==> IsDigit(b[i])
    ensures var front := b[..|a|];
            Less(a + ".log", b + ".log") <==> Less(a, front) || (|a| < |b| && a == front)
  {
    var front, rest := b[..|a|], b[|a|..];
    assert b + ".log" == front + (rest + ".log");
    LessAppend(a, front, ".log", rest + ".log");
    CompareMirrors(".log", ".log");
    if rest == "" {
      assert rest + ".log" == ".log";
    } else {
      assert (rest + ".log")[0] == b[|a|] && IsDigit(b[|a|]);
    }
  }

  lemma BeginningNumberOrder(m: nat, w: nat, b: string, q: nat)
    requires m < Power10(w) && q < Power10(w) && w <= |b| && b[..w] == Digits(q, w)
    requires forall i :: 0 <= i < |b| ==> IsDigit(b[i])
    ensures Less(Digits(m, w) + ".log", b + ".log") <==> m < q || (m == q && w < |b|)
  {
    BeginningOrder(Digits(m, w), b);
    DigitsOrder(m, q, w);
  }

  /** A shorter number sorts before a longer one exactly when it is at most that one's beginning. */
  lemma WidthsOrder(m: nat, w: nat, n: nat, k: nat)
    requires m < Power10(w) && n < Power10(w + k) && (k == 0 ==> m < n)
    ensures Less(Digits(m, w) + ".log", Digits(n, w + k) + ".log") <==> m <= WithoutLast(n, k)
  {
    DigitsAreDigits(n, w + k);
    DigitsPrefix(n, w, k);
    FirstDigitsFit(n, w, k);
    BeginningNumberOrder(m, w, Digits(n, w + k), WithoutLast(n, k));
  }

  lemma {:induction false} DigitsAreDigits(n: nat, w: nat)
    ensures forall i :: 0 <= i < w ==> IsDigit(Digits(n, w)[i])
  {
    if w > 0 {
      DigitsAreDigits(n / 10, w - 1);
    }
  }

  /**
   Of two chunks the earlier one's key sorts first exactly when its number is at most the other's
   without the digits that one has more.
   */
  lemma LogChunkOrderExactly(prefix: string, m: nat, n: nat)
    requires m < n
    ensures Width(m) <= Width(n)
    ensures Less(LogChunk(prefix, m), LogChunk(prefix, n)) <==> m <= WithoutLast(n, Width(n) - Width(m))
  {
    WidthGrows(m, n);
    PaddedIsDigits(m);
    PaddedIsDigits(n);
    WidthsOrder(m, Width(m), n, Width(n) - Width(m));
    var head := prefix + "logs/";
    LessAppend(head, head, Padded(m, 8) + ".log", Padded(n, 8) + ".log");
    CompareMirrors(head, head);
  }

  /** Different strings are ordered one way. */
  lemma LessOneWay(a: string, b: string)
    ensures Less(a, b) ==> !Less(b, a)
    ensures a != b ==> Less(a, b) || Less(b, a)
  {
    CompareMirrors(a, b);
  }

  /** So chunks of the same width sort as their numbers, as all do that have at most eight digits. */
  lemma LogChunkOrder(prefix: string, m: nat, n: nat)
    requires Width(m) == Width(n)
    ensures Less(LogChunk(prefix, m), LogChunk(prefix, n)) <==> m < n
  {
    LessOneWay(LogChunk(prefix, m), LogChunk(prefix, n));
    if m < n {
      LogChunkOrderExactly(prefix, m, n);
    } else if n < m {
      LogChunkOrderExactly(prefix, n, m);
    }
  }

  ghost predicate ListsInOrder(prefix: string, count: nat) {
    forall m: nat, n: nat {:trigger LogChunk(prefix, m), LogChunk(prefix, n)} ::
      m < n < count ==> Less(LogChunk(prefix, m), LogChunk(prefix, n))
  }

  lemma NineDigits()
    ensures Width(99_999_999) == 8 && Width(100_000_000) == 9
  {
    assert Power10(8) == 100_000_000;
    PaddedIsDigits(100_000_000);
    PowersGrow(8, Width(100_000_000) - 1);
  }

  /** The keys of a log's chunks list in the order of their numbers exactly when there are at most 100,000,000 of them. */
  lemma KeysListInOrder(prefix: string, count: nat)
    ensures ListsInOrder(prefix, count) <==> count <= 100_000_000
  {
    if count <= 100_000_000 {
      assert Power10(8) == 100_000_000;
      forall m: nat, n: nat | m < n < count ensures Less(LogChunk(prefix, m), LogChunk(prefix, n)) {
        LogChunkOrder(prefix, m, n);
      }
    } else {
      NineDigits();
      LogChunkOrderExactly(prefix, 99_999_999, 100_000_000);
      assert WithoutLast(100_000_000, 1) == WithoutLast(10_000_000, 0);
    }
  }

  // ----- Some names -------------------------------------------------------------------

  lemma SomeDecimals()
    ensures Decimal(2) == "2" && Decimal(3) == "3" && Decimal(12) == "12"
  {
    assert Decimal(1) == "1";
  }

  lemma SomeNames()
    ensures ArtifactPath(12, "a/report.xml") == "workers/12/artifacts/a/report.xml"
    ensures TryName("nightly", 2, "api", 12, 0) == "nightly-s2-api-12"
    ensures TryName("nightly", 2, "api", 12, 3) == "nightly-s2-api-12-r3"
  {
    SomeDecimals();
    assert "workers/" + ("12" + ['/'] + ("artifacts/" + "a/report.xml")) == "workers/12/artifacts/a/report.xml";
    assert "nightly" + "-s" + ("2" + ['-'] + "api") + ['-'] + "12" == "nightly-s2-api-12";
    assert "nightly-s2-api-12" + ['-'] + (['r'] + "3") == "nightly-s2-api-12-r3";
  }

  lemma SomeDigits()
    ensures Digits(12, 8) == "00000012"
  {
    assert Digits(0, 3) == "000";
    assert Digits(0, 6) == "000000";
    assert Digits(1, 7) == "0000001";
  }

  lemma SomeLogChunk()
    ensures LogChunk("logs-of/", 12) == "logs-of/logs/00000012.log"
  {
    SomeDigits();
    assert Power10(4) == 10_000;
    assert Padded(12, 8) == "00000012";
    assert "logs-of/" + "logs/" + ("00000012" + ".log") == "logs-of/logs/00000012.log";
  }
}
