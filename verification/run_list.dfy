/**
 Listing runs, newest first, page by page, out of two sources: the runs in the cluster and
 the rows of the store.
 */
module RunList {
  import opened Bytes
  import opened Phases
  import opened Order

  datatype Run = Run(uid: string, ns: string, testRef: string, phase: Phase, source: string, parent: string,
                     startedAt: Option<int>, finishedAt: Option<int>, comment: string)

  type Runs = map<string, Run>

  /** The position of the last finished run on a page. */
  datatype Cursor = Cursor(finishedAt: int, uid: string)

  /** Empty strings and Unset filter nothing. */
  datatype Query = Query(ns: string, testRef: string, phase: Phase, source: string, parent: string, limit: nat,
                         finishedAfter: Option<int>, cursor: Option<Cursor>)

  /** What the parsing of a query leaves of its limit. */
  function ParsedLimit(n: Option<int>): (limit: nat)
    ensures 1 <= limit <= 500
    ensures n.Some? && 1 <= n.value <= 500 ==> limit == n.value
    ensures n.Some? && n.value > 500 ==> limit == 500
    ensures n.None? || n.value < 1 ==> limit == 50
  {
    if n.None? || n.value <= 0 then 50 else if n.value > 500 then 500 else n.value
  }

  predicate WantsLive(q: Query) {
    q.cursor.None? && q.finishedAfter.None? && !IsTerminal(q.phase)
  }

  predicate WantsFinished(q: Query) {
    q.phase == Unset || IsTerminal(q.phase)
  }

  predicate Matches(q: Query, r: Run) {
    && (q.ns == "" || r.ns == q.ns)
    && (q.testRef == "" || r.testRef == q.testRef)
    && (q.phase == Unset || r.phase == q.phase)
    && (q.source == "" || r.source == q.source)
    && (q.parent == "" || r.parent == q.parent)
  }

  // ----- Newest first -----------------------------------------------------------------

  /** Negative where a comes first: later times first, no time last, then greater uids first. */
  function CompareNewestFirst(ta: Option<int>, tb: Option<int>, ua: string, ub: string): int {
    if ta.None? && tb.None? then Compare(ub, ua)
    else if ta.None? then 1
    else if tb.None? then -1
    else if ta.value > tb.value then -1
    else if tb.value > ta.value then 1
    else Compare(ub, ua)
  }

  /** What finished runs are sorted by. */
  datatype Key = Key(time: Option<int>, uid: string)

  predicate Newer(a: Key, b: Key) {
    CompareNewestFirst(a.time, b.time, a.uid, b.uid) < 0
  }

  /** Different keys are ordered one way and not the other. */
  lemma NewerTotal(a: Key, b: Key)
    ensures !(Newer(a, b) && Newer(b, a))
    ensures a != b ==> Newer(a, b) || Newer(b, a)
    ensures !Newer(a, a)
  {
    CompareMirrors(a.uid, b.uid);
    CompareMirrors(a.uid, a.uid);
  }

  lemma NewerTransitive(a: Key, b: Key, c: Key)
    requires Newer(a, b) && Newer(b, c)
    ensures Newer(a, c)
  {
    if Less(b.uid, a.uid) && Less(c.uid, b.uid) {
      LessTransitive(c.uid, b.uid, a.uid);
    }
    CompareMirrors(a.uid, b.uid);
    CompareMirrors(b.uid, c.uid);
  }

  /** Whether the run belongs on a later page than the cursor's. */
  predicate Past(c: Option<Cursor>, r: Run) {
    c.None?
    || (r.finishedAt.Some?
        && (r.finishedAt.value < c.value.finishedAt
            || (r.finishedAt.value == c.value.finishedAt && Less(r.uid, c.value.uid))))
  }

  predicate FinishedAfterOK(q: Query, r: Run) {
    q.finishedAfter.None? || (r.finishedAt.Some? && r.finishedAt.value >= q.finishedAfter.value)
  }

  // ----- Sorted listings --------------------------------------------------------------

  ghost predicate Descending(s: seq<Key>) {
    forall i, j {:trigger Newer(s[i], s[j])} :: 0 <= i < j < |s| ==> Newer(s[i], s[j])
  }

  /** s holds exactly the keys ks, newest first. */
  ghost predicate Lists(ks: set<Key>, s: seq<Key>) {
    && Descending(s)
    && (forall i {:trigger s[i]} :: 0 <= i < |s| ==> s[i] in ks)
    && (forall k {:trigger k in ks} :: k in ks ==> k in s)
  }

  lemma NewerIsOrder()
    ensures IsOrder(Newer)
  {
    forall a, b | a != b ensures Newer(a, b) || Newer(b, a) {
      NewerTotal(a, b);
    }
    forall a, b, c | Newer(a, b) && Newer(b, c) ensures Newer(a, c) {
      NewerTransitive(a, b, c);
    }
  }

  ghost function Newest(ks: set<Key>): (k: Key)
    requires ks != {}
    ensures k in ks && forall v {:trigger v in ks} :: v in ks && v != k ==> Newer(k, v)
  {
    NewerIsOrder();
    LeastExists(ks, Newer);
    var k :| IsLeast(ks, Newer, k);
    k
  }

  /** The keys, newest first. */
  ghost function Listing(ks: set<Key>): (s: seq<Key>)
    decreases ks
  {
    if ks == {} then [] else [Newest(ks)] + Listing(ks - {Newest(ks)})
  }

  lemma ListsCons(ks: set<Key>, k: Key, rest: seq<Key>)
    requires k in ks && Lists(ks - {k}, rest)
    requires forall v {:trigger v in ks} :: v in ks && v != k ==> Newer(k, v)
    ensures Lists(ks, [k] + rest)
  {
    var s := [k] + rest;
    forall i, j | 0 <= i < j < |s| ensures Newer(s[i], s[j]) {
      assert s[j] == rest[j - 1] && rest[j - 1] in ks;
      assert i > 0 ==> Newer(rest[i - 1], rest[j - 1]);
    }
    forall v | v in ks ensures v in s {
      assert v != k ==> v in ks - {k};
    }
  }

  lemma {:induction false} ListingLists(ks: set<Key>)
    ensures Lists(ks, Listing(ks))
    decreases ks
  {
    if ks != {} {
      ListingLists(ks - {Newest(ks)});
      ListsCons(ks, Newest(ks), Listing(ks - {Newest(ks)}));
    }
  }

  /** Where two listings agree so far, what comes next in one is still to come in the other if it is there. */
  lemma StillToCome(s: seq<Key>, t: seq<Key>, i: nat) returns (j: nat)
    requires Descending(s) && i < |s| && i <= |t| && s[i] in t
    requires forall k {:trigger s[k]} {:trigger t[k]} :: 0 <= k < i ==> s[k] == t[k]
    ensures i <= j < |t| && t[j] == s[i]
  {
    j :| 0 <= j < |t| && t[j] == s[i];
    NewerTotal(s[i], s[i]);
    assert forall k {:trigger s[k]} :: 0 <= k < i ==> Newer(s[k], s[i]);
  }

  /** There is one listing of a set. */
  lemma {:induction false} ListsUnique(ks: set<Key>, s: seq<Key>, t: seq<Key>, i: nat)
    requires Lists(ks, s) && Lists(ks, t) && i <= |s| && i <= |t|
    requires forall k {:trigger s[k]} {:trigger t[k]} :: 0 <= k < i ==> s[k] == t[k]
    ensures s == t
    decreases |s| - i
  {
    if i < |s| {
      var j := StillToCome(s, t, i);
      var k := StillToCome(t, s, i);
      NewerTotal(s[i], t[i]);
      assert s[i] == t[i];
      ListsUnique(ks, s, t, i + 1);
    } else if i < |t| {
      var j := StillToCome(t, s, i);
    }
  }

  /** Two listings begin alike as far as each holds what begins the other. */
  lemma {:induction false} SameStart(s: seq<Key>, t: seq<Key>, n: nat)
    requires Descending(s) && Descending(t) && n <= |s| && n <= |t|
    requires forall i {:trigger s[i]} {:trigger t[i]} :: 0 <= i < n ==> s[i] in t && t[i] in s
    ensures forall i {:trigger s[i]} {:trigger t[i]} :: 0 <= i < n ==> s[i] == t[i]
  {
    if n > 0 {
      SameStart(s, t, n - 1);
      var j := StillToCome(s, t, n - 1);
      var k := StillToCome(t, s, n - 1);
      NewerTotal(s[n - 1], t[n - 1]);
      assert s[n - 1] == t[n - 1];
    }
  }

  lemma {:induction false} PrefixSize(s: seq<Key>, ks: set<Key>, n: nat)
    requires n <= |s| && forall k {:trigger k in ks} :: k in ks ==> k in s[..n]
    ensures |ks| <= n
  {
    if n == 0 {
      assert ks == {};
    } else {
      var rest := ks - {s[n - 1]};
      forall k | k in rest ensures k in s[..n - 1] {
        var i :| 0 <= i < n && s[..n][i] == k;
        assert s[..n - 1][i] == k;
      }
      PrefixSize(s, rest, n - 1);
      assert s[n - 1] !in ks ==> rest == ks;
    }
  }

  /** What has many newer ones comes late. */
  lemma ComesLate(s: seq<Key>, i: nat, ks: set<Key>)
    requires Descending(s) && i < |s|
    requires forall k {:trigger k in ks} :: k in ks ==> k in s && Newer(k, s[i])
    ensures |ks| <= i
  {
    forall k | k in ks ensures k in s[..i] {
      var j :| 0 <= j < |s| && s[j] == k;
      NewerTotal(s[i], s[j]);
      assert j < i ==> s[..i][j] == k;
    }
    PrefixSize(s, ks, i);
  }

  // ----- One page ---------------------------------------------------------------------

  predicate ShownLive(q: Query, r: Run) {
    Matches(q, r) && !IsTerminal(r.phase)
  }

  /** A finished run that belongs on this page or a later one. */
  predicate Shown(q: Query, r: Run) {
    WantsFinished(q) && Matches(q, r) && FinishedAfterOK(q, r) && Past(q.cursor, r)
  }

  function KeysOf(m: Runs): set<Key> {
    set u | u in m :: Key(m[u].finishedAt, u)
  }

  function RunsAt(m: Runs, s: seq<Key>): seq<Run>
    requires forall i {:trigger s[i]} :: 0 <= i < |s| ==> s[i].uid in m
  {
    seq(|s|, i requires 0 <= i < |s| => m[s[i].uid])
  }

  /** The finished runs of the cluster to choose from. */
  function Finished(cluster: Runs, q: Query): Runs {
    map u | u in cluster && IsTerminal(cluster[u].phase) && Shown(q, cluster[u]) :: cluster[u]
  }

  function LiveUids(cluster: Runs, q: Query): set<string> {
    set u | u in cluster && ShownLive(q, cluster[u])
  }

  /** The store's rows to choose from. */
  function Rows(history: Runs, q: Query): Runs {
    map u | u in history && Shown(q, history[u]) :: history[u]
  }

  /** What the store answers: its first rows after the cursor, newest first. */
  ghost function StoreAnswer(history: Runs, q: Query): seq<Key> {
    var all := Listing(KeysOf(Rows(history, q)));
    all[..Min(|all|, q.limit)]
  }

  function Uids(s: seq<Key>): set<string> {
    set i | 0 <= i < |s| :: s[i].uid
  }

  /** The cluster's finished runs, with the comments that history has, and the rows of these uids not in the cluster. */
  function Merged(cluster: Runs, history: Runs, some: set<string>, q: Query): Runs
    requires some <= history.Keys
  {
    var fin := Finished(cluster, q);
    map u | u in fin.Keys + (some - LiveUids(cluster, q)) ::
      if u !in fin then history[u] else if u in some then fin[u].(comment := history[u].comment) else fin[u]
  }

  /** Every finished run that belongs on this page or a later one: the union of both sources. */
  function Union(cluster: Runs, history: Runs, q: Query): Runs {
    Merged(cluster, history, Rows(history, q).Keys, q)
  }

  /** The live runs, the finished runs, the cursor for the next page; or a crash for want of a finish time. */
  datatype Page = Page(live: seq<Run>, finished: seq<Run>, next: Option<Cursor>) | Crash

  lemma StoreAnswerUids(history: Runs, q: Query)
    ensures Uids(StoreAnswer(history, q)) <= Rows(history, q).Keys <= history.Keys
  {
    ListingLists(KeysOf(Rows(history, q)));
  }

  /** The finished runs the page is cut from. */
  ghost function Candidates(cluster: Runs, history: Runs, q: Query): Runs {
    StoreAnswerUids(history, q);
    Merged(cluster, history, Uids(StoreAnswer(history, q)), q)
  }

  /** Cuts the page out of its candidates; full tells that the store's answer was. */
  function Cut(live: seq<Run>, m: Runs, s: seq<Key>, limit: nat, full: bool): Page
    requires forall i {:trigger s[i]} :: 0 <= i < |s| ==> s[i].uid in m
  {
    var n := Min(|s|, limit);
    if (full || |s| > limit) && n > 0 then
      if s[n - 1].time.None? then Crash
      else Page(live, RunsAt(m, s[..n]), Some(Cursor(s[n - 1].time.value, s[n - 1].uid)))
    else Page(live, RunsAt(m, s[..n]), None)
  }

  lemma ListingHas(m: Runs)
    ensures Lists(KeysOf(m), Listing(KeysOf(m)))
    ensures forall i {:trigger Listing(KeysOf(m))[i]} :: 0 <= i < |Listing(KeysOf(m))| ==>
              Listing(KeysOf(m))[i].uid in m && m[Listing(KeysOf(m))[i].uid].finishedAt == Listing(KeysOf(m))[i].time
  {
    ListingLists(KeysOf(m));
    var s := Listing(KeysOf(m));
    assert forall i {:trigger s[i]} :: 0 <= i < |s| ==> s[i] in KeysOf(m);
  }

  ghost function PageOf(cluster: Runs, history: Runs, q: Query): Page {
    var m := Candidates(cluster, history, q);
    ListingHas(m);
    var live := if WantsLive(q) then LiveListing(cluster, q) else [];
    Cut(live, m, Listing(KeysOf(m)), q.limit, |StoreAnswer(history, q)| >= q.limit)
  }

  /** The live runs, latest started first. */
  ghost function LiveListing(cluster: Runs, q: Query): seq<Run> {
    var keys := set u | u in LiveUids(cluster, q) :: Key(cluster[u].startedAt, u);
    ListingLists(keys);
    RunsAt(cluster, Listing(keys))
  }

  // ----- A page is the top of the union -----------------------------------------------

  /** Finish times are set, and equal where a run has finished in both sources. */
  ghost predicate Steady(cluster: Runs, history: Runs) {
    && (forall u {:trigger cluster[u]} :: u in cluster ==>
          cluster[u].uid == u && (IsTerminal(cluster[u].phase) ==> cluster[u].finishedAt.Some?))
    && (forall u {:trigger history[u]} :: u in history ==> history[u].uid == u && history[u].finishedAt.Some?)
    && (forall u {:trigger history[u]} {:trigger cluster[u]} ::
          u in history && u in cluster && IsTerminal(cluster[u].phase) ==> cluster[u].finishedAt == history[u].finishedAt)
  }

  /** The keys of some rows, without those whose runs show as live. */
  function RowKeys(cluster: Runs, history: Runs, some: set<string>, q: Query): set<Key>
    requires some <= history.Keys
  {
    set u | u in some && u !in LiveUids(cluster, q) :: Key(history[u].finishedAt, u)
  }

  lemma UnionKeys(cluster: Runs, history: Runs, some: set<string>, q: Query)
    requires Steady(cluster, history) && some <= Rows(history, q).Keys
    ensures Merged(cluster, history, some, q).Keys == Finished(cluster, q).Keys + (some - LiveUids(cluster, q))
    ensures KeysOf(Merged(cluster, history, some, q)) == KeysOf(Finished(cluster, q)) + RowKeys(cluster, history, some, q)
  {
    var m := Merged(cluster, history, some, q);
    var fin := Finished(cluster, q);
    var rows := RowKeys(cluster, history, some, q);
    forall u | u in some && u !in LiveUids(cluster, q) ensures u in m && m[u].finishedAt == history[u].finishedAt {
      assert u in Rows(history, q).Keys;
      assert u in fin ==> u in cluster && cluster[u].finishedAt == history[u].finishedAt;
    }
    forall k | k in KeysOf(m) ensures k in KeysOf(fin) + rows {
      if k.uid in fin {
        assert m[k.uid].finishedAt == fin[k.uid].finishedAt;
        assert k in KeysOf(fin);
      } else {
        assert k in rows;
      }
    }
    forall k | k in KeysOf(fin) + rows ensures k in KeysOf(m) {
      if k in rows {
        assert k.uid in m && m[k.uid].finishedAt == k.time;
      } else {
        assert k.uid in fin && m[k.uid].finishedAt == k.time;
      }
    }
  }

  /** A row the store's answer leaves out comes after all the answer holds, and the answer is full. */
  lemma LeftOutIsLate(history: Runs, q: Query, u: string)
    requires u in Rows(history, q) && u !in Uids(StoreAnswer(history, q))
    ensures var a := StoreAnswer(history, q);
            |a| == q.limit && forall i {:trigger a[i]} :: 0 <= i < |a| ==> Newer(a[i], Key(history[u].finishedAt, u))
  {
    var keys := KeysOf(Rows(history, q));
    var all := Listing(keys);
    var a := StoreAnswer(history, q);
    ListingLists(keys);
    var k := Key(history[u].finishedAt, u);
    assert k in keys;
    var j :| 0 <= j < |all| && all[j] == k;
    assert forall i {:trigger all[i]} :: 0 <= i < |a| ==> all[i] == a[i] && a[i].uid in Uids(a);
    assert j >= |a|;
    forall i | 0 <= i < |a| ensures Newer(a[i], k) {
      assert Newer(all[i], all[j]);
    }
  }

  lemma DistinctKeys(s: seq<Key>)
    requires Descending(s)
    ensures |KeySet(s)| == |s|
    decreases |s|
  {
    if s != [] {
      var n := |s| - 1;
      assert Descending(s[..n]);
      DistinctKeys(s[..n]);
      forall i | 0 <= i < n ensures s[i] != s[n] {
        assert Newer(s[i], s[n]);
        NewerTotal(s[n], s[n]);
      }
      assert KeySet(s) == KeySet(s[..n]) + {s[n]};
    }
  }

  function KeySet(s: seq<Key>): set<Key> {
    set i | 0 <= i < |s| :: s[i]
  }

  /** A listing is at least as long as a descending sequence of some of its keys. */
  lemma AtLeast(s: seq<Key>, a: seq<Key>)
    requires Descending(a) && forall j {:trigger a[j]} :: 0 <= j < |a| ==> a[j] in s
    ensures |a| <= |s|
  {
    DistinctKeys(a);
    assert s[..|s|] == s;
    PrefixSize(s, KeySet(a), |s|);
  }

  /** A run of the union that the page's candidates lack, or have without its comment. */
  ghost predicate Missed(cluster: Runs, history: Runs, q: Query, u: string) {
    u in Union(cluster, history, q)
    && !(u in Candidates(cluster, history, q) && Candidates(cluster, history, q)[u] == Union(cluster, history, q)[u])
  }

  function KeyAt(m: Runs, u: string): Key
    requires u in m
  {
    Key(m[u].finishedAt, u)
  }

  /** Only rows that the store's full answer leaves out are missed, and they come after all it holds. */
  lemma MissedAreLate(cluster: Runs, history: Runs, q: Query, u: string)
    requires Steady(cluster, history) && Missed(cluster, history, q, u)
    ensures u in Rows(history, q) && u !in Uids(StoreAnswer(history, q))
    ensures KeyAt(Union(cluster, history, q), u) == KeyAt(history, u)
    ensures var a := StoreAnswer(history, q);
            |a| == q.limit && forall i {:trigger a[i]} :: 0 <= i < |a| ==> Newer(a[i], KeyAt(Union(cluster, history, q), u))
  {
    StoreAnswerUids(history, q);
    if u in Finished(cluster, q) {
      assert u in cluster && IsTerminal(cluster[u].phase);
    }
    LeftOutIsLate(history, q, u);
  }

  /** The candidates are of the union, at the same places. */
  lemma CandidatesAreOfUnion(cluster: Runs, history: Runs, q: Query)
    requires Steady(cluster, history)
    ensures KeysOf(Candidates(cluster, history, q)) <= KeysOf(Union(cluster, history, q))
  {
    StoreAnswerUids(history, q);
    UnionKeys(cluster, history, Uids(StoreAnswer(history, q)), q);
    UnionKeys(cluster, history, Rows(history, q).Keys, q);
  }

  // ----- Following the cursors --------------------------------------------------------

  /** All finished runs that belong on this page or later ones, newest first. */
  ghost function Everything(cluster: Runs, history: Runs, q: Query): seq<Run> {
    var all := Union(cluster, history, q);
    ListingHas(all);
    RunsAt(all, Listing(KeysOf(all)))
  }

  ghost predicate WellTimed(m: Runs) {
    forall u {:trigger m[u]} :: u in m ==> m[u].finishedAt.Some? && m[u].uid == u
  }

  function CursorOf(r: Run): Option<Cursor> {
    if r.finishedAt.None? then None else Some(Cursor(r.finishedAt.value, r.uid))
  }

  /** Whether the page is the beginning of all runs left, and names its last one unless there are no more. */
  ghost predicate IsRight(p: Page, all: seq<Run>) {
    && p.Page? && p.finished <= all
    && (p.next.None? ==> p.finished == all)
    && (p.next.Some? ==> p.finished != [] && p.next == CursorOf(p.finished[|p.finished| - 1]))
  }

  /** Whether key k belongs after the first n candidates, a next page being named. */
  ghost predicate ComesAfter(s: seq<Key>, n: nat, k: Key)
    requires n <= |s|
  {
    n > 0 && Newer(s[n - 1], k)
  }

  /** Candidates that lack nothing of the union before their n-th place are its beginning. */
  lemma BeginsAlike(m: Runs, s: seq<Key>, all: Runs, t: seq<Key>, n: nat)
    requires Lists(KeysOf(m), s) && Lists(KeysOf(all), t) && KeysOf(m) <= KeysOf(all) && n <= |s|
    requires forall u {:trigger all[u]} :: u in all && !(u in m && m[u] == all[u]) ==> ComesAfter(s, n, KeyAt(all, u))
    ensures n <= |t|
    ensures forall i {:trigger s[i]} {:trigger t[i]} :: 0 <= i < n ==> s[i] == t[i]
    ensures forall i {:trigger t[i]} :: 0 <= i < n ==> t[i].uid in m && t[i].uid in all && m[t[i].uid] == all[t[i].uid]
  {
    var first := s[..n];
    assert forall j {:trigger first[j]} :: 0 <= j < n ==> first[j] == s[j] && s[j] in t;
    DescendingPrefix(s, n);
    AtLeast(t, first);
    forall i | 0 <= i < n ensures t[i] in s && t[i].uid in m && t[i].uid in all && m[t[i].uid] == all[t[i].uid] {
      NotLate(m, s, all, t, n, i);
    }
    forall i | 0 <= i < n ensures s[i] in t {
      assert s[i] in KeysOf(all);
    }
    SameStart(s, t, n);
  }

  lemma DescendingPrefix(s: seq<Key>, n: nat)
    requires Descending(s) && n <= |s|
    ensures Descending(s[..n])
  {
    forall i, j | 0 <= i < j < n ensures Newer(s[..n][i], s[..n][j]) {
      assert Newer(s[i], s[j]);
    }
  }

  lemma NotLate(m: Runs, s: seq<Key>, all: Runs, t: seq<Key>, n: nat, i: nat)
    requires Lists(KeysOf(m), s) && Lists(KeysOf(all), t) && KeysOf(m) <= KeysOf(all) && i < n <= |s| && n <= |t|
    requires forall u {:trigger all[u]} :: u in all && !(u in m && m[u] == all[u]) ==> ComesAfter(s, n, KeyAt(all, u))
    ensures t[i] in s && t[i].uid in m && t[i].uid in all && m[t[i].uid] == all[t[i].uid]
  {
    assert t[i] in KeysOf(all);
    var u := t[i].uid;
    if u in m && m[u] == all[u] {
      assert t[i] in KeysOf(m);
    } else {
      assert ComesAfter(s, n, KeyAt(all, u));
      var first := s[..n];
      DescendingPrefix(s, n);
      DistinctKeys(first);
      forall k | k in KeySet(first) ensures k in t && Newer(k, t[i]) {
        var j :| 0 <= j < n && first[j] == k;
        assert s[j] in KeysOf(all);
        if j < n - 1 {
          assert Newer(s[j], s[n - 1]);
          NewerTransitive(s[j], s[n - 1], t[i]);
        }
      }
      ComesLate(t, i, KeySet(first));
    }
  }

  /** A page cut from candidates that lack only what comes after it. */
  lemma CutIsRight(live: seq<Run>, m: Runs, s: seq<Key>, all: Runs, t: seq<Key>, limit: nat, full: bool)
    requires Lists(KeysOf(m), s) && Lists(KeysOf(all), t) && KeysOf(m) <= KeysOf(all) && WellTimed(all) && limit >= 1
    requires forall i {:trigger s[i]} :: 0 <= i < |s| ==> s[i].uid in m && m[s[i].uid].finishedAt == s[i].time
    requires forall i {:trigger t[i]} :: 0 <= i < |t| ==> t[i].uid in all && all[t[i].uid].finishedAt == t[i].time
    requires m == all || full
    requires forall u {:trigger all[u]} :: u in all && !(u in m && m[u] == all[u]) ==> ComesAfter(s, Min(|s|, limit), KeyAt(all, u))
    ensures IsRight(Cut(live, m, s, limit, full), RunsAt(all, t))
  {
    var n := Min(|s|, limit);
    BeginsAlike(m, s, all, t, n);
    assert RunsAt(m, s[..n]) == RunsAt(all, t)[..n];
    if m == all {
      ListsUnique(KeysOf(m), s, t, 0);
    }
    if n > 0 {
      assert s[n - 1] == t[n - 1] && all[t[n - 1].uid].finishedAt.Some? && all[t[n - 1].uid].uid == t[n - 1].uid;
    } else if s == [] && full {
      SomethingLeft(m, all, t);
    }
  }

  lemma SomethingLeft(m: Runs, all: Runs, t: seq<Key>)
    requires Lists(KeysOf(all), t)
    requires forall u {:trigger all[u]} :: u in all ==> u in m
    ensures t != [] ==> KeysOf(m) != {}
  {
    if t != [] {
      assert t[0] in KeysOf(all);
      assert KeyAt(m, t[0].uid) in KeysOf(m);
    }
  }

  /** Conversely, what a right page lacks comes after it. */
  lemma RightLacksOnlyLater(live: seq<Run>, m: Runs, s: seq<Key>, all: Runs, t: seq<Key>, limit: nat, full: bool, u: string)
    requires Lists(KeysOf(m), s) && Lists(KeysOf(all), t) && WellTimed(all) && limit >= 1
    requires forall i {:trigger s[i]} :: 0 <= i < |s| ==> s[i].uid in m && m[s[i].uid].finishedAt == s[i].time && m[s[i].uid].uid == s[i].uid
    requires forall i {:trigger t[i]} :: 0 <= i < |t| ==> t[i].uid in all && all[t[i].uid].finishedAt == t[i].time
    requires u in all && !(u in m && m[u] == all[u]) && full
    requires IsRight(Cut(live, m, s, limit, full), RunsAt(all, t))
    ensures ComesAfter(s, Min(|s|, limit), KeyAt(all, u))
  {
    var n := Min(|s|, limit);
    var k := KeyAt(all, u);
    assert k in KeysOf(all);
    var j :| 0 <= j < |t| && t[j] == k;
    var first := RunsAt(m, s[..n]);
    assert RunsAt(all, t)[j] == all[u];
    forall i | 0 <= i < n ensures s[i] == t[i] && m[s[i].uid] == all[t[i].uid] {
      assert first[i] == RunsAt(all, t)[i];
    }
    assert j >= n;
    if n > 0 {
      assert Newer(t[n - 1], t[j]);
    }
  }

  lemma CandidatesAreTimed(cluster: Runs, history: Runs, q: Query)
    requires Steady(cluster, history)
    ensures WellTimed(Candidates(cluster, history, q)) && WellTimed(Union(cluster, history, q))
  {
    StoreAnswerUids(history, q);
    UnionKeys(cluster, history, Uids(StoreAnswer(history, q)), q);
    UnionKeys(cluster, history, Rows(history, q).Keys, q);
  }

  lemma NoneMissed(cluster: Runs, history: Runs, q: Query)
    requires Steady(cluster, history) && forall u :: !Missed(cluster, history, q, u)
    ensures Candidates(cluster, history, q) == Union(cluster, history, q)
  {
    var m, all := Candidates(cluster, history, q), Union(cluster, history, q);
    StoreAnswerUids(history, q);
    UnionKeys(cluster, history, Uids(StoreAnswer(history, q)), q);
    UnionKeys(cluster, history, Rows(history, q).Keys, q);
    forall u ensures (u in m <==> u in all) && (u in all ==> m[u] == all[u]) {
      assert !Missed(cluster, history, q, u);
    }
  }

  /** Every run that the candidates miss comes after the page. */
  ghost predicate MissesOnlyLater(cluster: Runs, history: Runs, q: Query) {
    var s := Listing(KeysOf(Candidates(cluster, history, q)));
    forall u {:trigger Missed(cluster, history, q, u)} :: Missed(cluster, history, q, u) ==>
      ComesAfter(s, Min(|s|, q.limit), KeyAt(Union(cluster, history, q), u))
  }

  lemma RightIfOnlyLater(cluster: Runs, history: Runs, q: Query)
    requires Steady(cluster, history) && q.limit >= 1 && MissesOnlyLater(cluster, history, q)
    ensures IsRight(PageOf(cluster, history, q), Everything(cluster, history, q))
  {
    var m, all := Candidates(cluster, history, q), Union(cluster, history, q);
    var s, t := Listing(KeysOf(m)), Listing(KeysOf(all));
    ListingHas(m);
    ListingHas(all);
    CandidatesAreTimed(cluster, history, q);
    CandidatesAreOfUnion(cluster, history, q);
    forall u | u in all && !(u in m && m[u] == all[u]) ensures ComesAfter(s, Min(|s|, q.limit), KeyAt(all, u)) {
      assert Missed(cluster, history, q, u);
    }
    if u :| Missed(cluster, history, q, u) {
      MissedAreLate(cluster, history, q, u);
    } else {
      NoneMissed(cluster, history, q);
    }
    CutIsRight(if WantsLive(q) then LiveListing(cluster, q) else [], m, s, all, t, q.limit, |StoreAnswer(history, q)| >= q.limit);
  }

  lemma OnlyLaterIfRight(cluster: Runs, history: Runs, q: Query)
    requires Steady(cluster, history) && q.limit >= 1
    requires IsRight(PageOf(cluster, history, q), Everything(cluster, history, q))
    ensures MissesOnlyLater(cluster, history, q)
  {
    var m, all := Candidates(cluster, history, q), Union(cluster, history, q);
    var s, t := Listing(KeysOf(m)), Listing(KeysOf(all));
    var live := if WantsLive(q) then LiveListing(cluster, q) else [];
    ListingHas(m);
    ListingHas(all);
    CandidatesAreTimed(cluster, history, q);
    forall u | Missed(cluster, history, q, u) ensures ComesAfter(s, Min(|s|, q.limit), KeyAt(all, u)) {
      MissedAreLate(cluster, history, q, u);
      RightLacksOnlyLater(live, m, s, all, t, q.limit, |StoreAnswer(history, q)| >= q.limit, u);
    }
  }

  /** A page is right exactly when every run that its candidates miss comes after it. */
  lemma PageIsRightExactly(cluster: Runs, history: Runs, q: Query)
    requires Steady(cluster, history) && q.limit >= 1
    ensures IsRight(PageOf(cluster, history, q), Everything(cluster, history, q)) <==> MissesOnlyLater(cluster, history, q)
  {
    if MissesOnlyLater(cluster, history, q) {
      RightIfOnlyLater(cluster, history, q);
    }
    if IsRight(PageOf(cluster, history, q), Everything(cluster, history, q)) {
      OnlyLaterIfRight(cluster, history, q);
    }
  }

  /** What the handler can tell of its page: the store's answer was not full, or the page reaches no further than it. */
  ghost predicate IsGuarded(cluster: Runs, history: Runs, q: Query) {
    IsWithin(StoreAnswer(history, q), Listing(KeysOf(Candidates(cluster, history, q))), q.limit)
  }

  /** The answer a is short, or a page cut from s is not empty and ends no later than the answer. */
  predicate IsWithin(a: seq<Key>, s: seq<Key>, limit: nat) {
    var n := Min(|s|, limit);
    |a| < limit || (n > 0 && |a| > 0 && !Newer(a[|a| - 1], s[n - 1]))
  }

  /** That is enough for the page to be right. */
  lemma GuardedIsRight(cluster: Runs, history: Runs, q: Query)
    requires Steady(cluster, history) && q.limit >= 1 && IsGuarded(cluster, history, q)
    ensures IsRight(PageOf(cluster, history, q), Everything(cluster, history, q))
  {
    var a, s := StoreAnswer(history, q), Listing(KeysOf(Candidates(cluster, history, q)));
    var n := Min(|s|, q.limit);
    forall u | Missed(cluster, history, q, u) ensures ComesAfter(s, n, KeyAt(Union(cluster, history, q), u)) {
      MissedAreLate(cluster, history, q, u);
      var k := KeyAt(Union(cluster, history, q), u);
      var last := a[|a| - 1];
      assert Newer(last, k);
      NewerTotal(last, s[n - 1]);
      if s[n - 1] != last {
        NewerTransitive(s[n - 1], last, k);
      }
    }
    PageIsRightExactly(cluster, history, q);
  }

  /** No row of the store's answer shows as live. */
  ghost predicate NoRowLive(cluster: Runs, history: Runs, q: Query) {
    forall u {:trigger u in Uids(StoreAnswer(history, q))} :: u in Uids(StoreAnswer(history, q)) ==> u !in LiveUids(cluster, q)
  }

  /** Then all rows of the answer are candidates. */
  lemma AnswerIsListed(cluster: Runs, history: Runs, q: Query)
    requires Steady(cluster, history) && NoRowLive(cluster, history, q)
    ensures var a := StoreAnswer(history, q);
            Descending(a) && forall j {:trigger a[j]} :: 0 <= j < |a| ==> a[j] in Listing(KeysOf(Candidates(cluster, history, q)))
  {
    StoreAnswerUids(history, q);
    var a := StoreAnswer(history, q);
    var rows := Rows(history, q);
    ListingLists(KeysOf(rows));
    DescendingPrefix(Listing(KeysOf(rows)), |a|);
    UnionKeys(cluster, history, Uids(a), q);
    ListingLists(KeysOf(Candidates(cluster, history, q)));
    forall j | 0 <= j < |a| ensures a[j] in KeysOf(Candidates(cluster, history, q)) {
      assert a[j] == Listing(KeysOf(rows))[j];
      assert a[j].uid in Uids(a) && a[j].uid in rows.Keys;
    }
  }

  /** With no row live, a full answer fills the page and reaches at least as far. */
  lemma NoRowLiveIsGuarded(cluster: Runs, history: Runs, q: Query)
    requires Steady(cluster, history) && q.limit >= 1 && NoRowLive(cluster, history, q)
    ensures IsGuarded(cluster, history, q)
    ensures |StoreAnswer(history, q)| <= |Listing(KeysOf(Candidates(cluster, history, q)))|
  {
    var a, s := StoreAnswer(history, q), Listing(KeysOf(Candidates(cluster, history, q)));
    ListingLists(KeysOf(Candidates(cluster, history, q)));
    AnswerIsListed(cluster, history, q);
    ReachesAsFar(a, s, q.limit);
  }

  lemma ReachesAsFar(a: seq<Key>, s: seq<Key>, limit: nat)
    requires Descending(a) && Descending(s) && limit >= 1 && |a| <= limit
    requires forall j {:trigger a[j]} :: 0 <= j < |a| ==> a[j] in s
    ensures |a| <= |s| && IsWithin(a, s, limit)
  {
    AtLeast(s, a);
    if |a| == limit && Newer(a[|a| - 1], s[limit - 1]) {
      AllNewer(a, s, s[limit - 1]);
      DistinctKeys(a);
      ComesLate(s, limit - 1, KeySet(a));
    }
  }

  /** An answer that is not full misses nothing. */
  lemma ShortAnswerMissesNone(cluster: Runs, history: Runs, q: Query)
    requires Steady(cluster, history) && |StoreAnswer(history, q)| < q.limit
    ensures Candidates(cluster, history, q) == Union(cluster, history, q)
  {
    forall u ensures !Missed(cluster, history, q, u) {
      if Missed(cluster, history, q, u) {
        MissedAreLate(cluster, history, q, u);
      }
    }
    NoneMissed(cluster, history, q);
  }

  lemma PageSize(cluster: Runs, history: Runs, q: Query)
    requires Steady(cluster, history)
    ensures var p := PageOf(cluster, history, q);
            p.Page? ==> |p.finished| == Min(|Listing(KeysOf(Candidates(cluster, history, q)))|, q.limit)
  {
    ListingHas(Candidates(cluster, history, q));
  }

  /** A page none of whose rows shows as live is right, and full unless nothing is left. */
  lemma PageIsTop(cluster: Runs, history: Runs, q: Query)
    requires Steady(cluster, history) && q.limit >= 1 && NoRowLive(cluster, history, q)
    ensures IsRight(PageOf(cluster, history, q), Everything(cluster, history, q))
    ensures |PageOf(cluster, history, q).finished| == Min(|Everything(cluster, history, q)|, q.limit)
  {
    NoRowLiveIsGuarded(cluster, history, q);
    GuardedIsRight(cluster, history, q);
    PageSize(cluster, history, q);
    if |StoreAnswer(history, q)| < q.limit {
      ShortAnswerMissesNone(cluster, history, q);
      EverythingSize(cluster, history, q);
    }
  }

  lemma EverythingSize(cluster: Runs, history: Runs, q: Query)
    ensures |Everything(cluster, history, q)| == |Listing(KeysOf(Union(cluster, history, q)))|
  {
    ListingHas(Union(cluster, history, q));
  }

  lemma AllNewer(a: seq<Key>, s: seq<Key>, k: Key)
    requires Descending(a) && a != [] && Newer(a[|a| - 1], k)
    requires forall j {:trigger a[j]} :: 0 <= j < |a| ==> a[j] in s
    ensures forall x {:trigger x in KeySet(a)} :: x in KeySet(a) ==> x in s && Newer(x, k)
  {
    forall x | x in KeySet(a) ensures x in s && Newer(x, k) {
      var j :| 0 <= j < |a| && a[j] == x;
      if j < |a| - 1 {
        NewerTransitive(a[j], a[|a| - 1], k);
      }
    }
  }

  /** Past a cursor are the runs that come after the one it was made from. */
  lemma PastIsOlder(last: Run, r: Run)
    requires last.finishedAt.Some? && r.finishedAt.Some?
    ensures Past(Some(Cursor(last.finishedAt.value, last.uid)), r) <==>
            Newer(Key(last.finishedAt, last.uid), Key(r.finishedAt, r.uid))
  {
    CompareMirrors(last.uid, r.uid);
  }

  lemma PastFurther(c: Option<Cursor>, last: Run, r: Run)
    requires last.finishedAt.Some? && Past(c, last) && Past(Some(Cursor(last.finishedAt.value, last.uid)), r)
    ensures Past(c, r)
  {
    if c.Some? && Less(r.uid, last.uid) && Less(last.uid, c.value.uid) {
      LessTransitive(r.uid, last.uid, c.value.uid);
    }
  }

  /** What the union holds under a uid: the run in the cluster with the row's comment, or else the row. */
  lemma UnionAt(cluster: Runs, history: Runs, q: Query, u: string)
    requires Steady(cluster, history)
    ensures var all := Union(cluster, history, q);
            var inCluster := u in cluster && IsTerminal(cluster[u].phase) && Shown(q, cluster[u]);
            var inStore := u in history && Shown(q, history[u]) && u !in LiveUids(cluster, q);
            && (u in all <==> inCluster || inStore)
            && (inCluster ==> all[u] == if inStore then cluster[u].(comment := history[u].comment) else cluster[u])
            && (!inCluster && inStore ==> all[u] == history[u])
  {
    UnionKeys(cluster, history, Rows(history, q).Keys, q);
  }

  lemma UnionPastAt(cluster: Runs, history: Runs, q: Query, last: Run, u: string)
    requires Steady(cluster, history) && last.finishedAt.Some? && Past(q.cursor, last)
    ensures var c := CursorOf(last);
            var all, rest := Union(cluster, history, q), Union(cluster, history, q.(cursor := c));
            && (u in rest <==> u in all && Past(c, all[u]))
            && (u in rest ==> rest[u] == all[u])
  {
    var q2 := q.(cursor := CursorOf(last));
    UnionAt(cluster, history, q, u);
    UnionAt(cluster, history, q2, u);
    if u in cluster {
      ShownPast(q, last, cluster[u]);
      assert cluster[u].uid == u;
    }
    if u in history {
      ShownPast(q, last, history[u]);
      assert history[u].uid == u;
    }
  }

  lemma ShownPast(q: Query, last: Run, r: Run)
    requires last.finishedAt.Some? && Past(q.cursor, last)
    ensures Shown(q.(cursor := CursorOf(last)), r) <==> Shown(q, r) && Past(CursorOf(last), r)
  {
    if Past(CursorOf(last), r) {
      PastFurther(q.cursor, last, r);
    }
  }

  // The next page is taken from what comes after the cursor.

  lemma LastIsShown(cluster: Runs, history: Runs, q: Query, n: nat, last: Run)
    requires Steady(cluster, history)
    requires 0 < n <= |Everything(cluster, history, q)| && last == Everything(cluster, history, q)[n - 1]
    ensures last.finishedAt.Some? && Past(q.cursor, last)
    ensures Listing(KeysOf(Union(cluster, history, q)))[n - 1] == Key(last.finishedAt, last.uid)
  {
    var all := Union(cluster, history, q);
    ListingHas(all);
    var u := Listing(KeysOf(all))[n - 1].uid;
    assert last == all[u];
    UnionAt(cluster, history, q, u);
  }

  lemma RestLists(cluster: Runs, history: Runs, q: Query, n: nat, last: Run)
    requires Steady(cluster, history) && last.finishedAt.Some? && Past(q.cursor, last)
    requires 0 < n <= |Listing(KeysOf(Union(cluster, history, q)))|
    requires Listing(KeysOf(Union(cluster, history, q)))[n - 1] == Key(last.finishedAt, last.uid)
    ensures var all, rest := Union(cluster, history, q), Union(cluster, history, q.(cursor := CursorOf(last)));
            && Listing(KeysOf(rest)) == Listing(KeysOf(all))[n..]
            && forall u {:trigger u in rest} :: u in rest ==> u in all && rest[u] == all[u]
  {
    var all, rest := Union(cluster, history, q), Union(cluster, history, q.(cursor := CursorOf(last)));
    ListingHas(all);
    ListingHas(rest);
    forall u ensures (u in rest <==> u in all && Past(CursorOf(last), all[u])) && (u in rest ==> rest[u] == all[u]) {
      UnionPastAt(cluster, history, q, last, u);
    }
    TailLists(all, rest, Listing(KeysOf(all)), n, last);
    ListsUnique(KeysOf(rest), Listing(KeysOf(rest)), Listing(KeysOf(all))[n..], 0);
  }

  lemma RunsAtTail(all: Runs, rest: Runs, s: seq<Key>, t: seq<Key>, n: nat)
    requires forall i {:trigger s[i]} :: 0 <= i < |s| ==> s[i].uid in all
    requires forall i {:trigger t[i]} :: 0 <= i < |t| ==> t[i].uid in rest
    requires forall u {:trigger u in rest} :: u in rest ==> u in all && rest[u] == all[u]
    requires n <= |s| && t == s[n..]
    ensures RunsAt(rest, t) == RunsAt(all, s)[n..]
  {
    assert forall i {:trigger t[i]} :: 0 <= i < |t| ==> t[i] == s[n + i] && t[i].uid in rest;
  }

  lemma RestOfEverything(cluster: Runs, history: Runs, q: Query, n: nat, last: Run)
    requires Steady(cluster, history)
    requires 0 < n <= |Everything(cluster, history, q)| && last == Everything(cluster, history, q)[n - 1]
    ensures Everything(cluster, history, q.(cursor := CursorOf(last))) == Everything(cluster, history, q)[n..]
  {
    LastIsShown(cluster, history, q, n, last);
    RestLists(cluster, history, q, n, last);
    var all, rest := Union(cluster, history, q), Union(cluster, history, q.(cursor := CursorOf(last)));
    ListingHas(all);
    ListingHas(rest);
    RunsAtTail(all, rest, Listing(KeysOf(all)), Listing(KeysOf(rest)), n);
  }

  lemma TailLists(all: Runs, rest: Runs, s: seq<Key>, n: nat, last: Run)
    requires WellTimed(all) && Lists(KeysOf(all), s) && 0 < n <= |s|
    requires last.finishedAt.Some? && s[n - 1] == Key(last.finishedAt, last.uid)
    requires forall u {:trigger u in rest} :: (u in rest <==> u in all && Past(CursorOf(last), all[u])) && (u in rest ==> rest[u] == all[u])
    ensures Lists(KeysOf(rest), s[n..])
  {
    var t := s[n..];
    forall i | 0 <= i < |t| ensures t[i] in KeysOf(rest) {
      assert s[n + i] in KeysOf(all);
      assert Newer(s[n - 1], s[n + i]);
      PastIsOlder(last, all[t[i].uid]);
      assert t[i].uid in rest;
    }
    forall k | k in KeysOf(rest) ensures k in t {
      assert k.uid in rest && all[k.uid].finishedAt.Some?;
      PastIsOlder(last, all[k.uid]);
      assert k in KeysOf(all);
      var j :| 0 <= j < |s| && s[j] == k;
      NewerTotal(s[n - 1], s[j]);
      assert s[j] == t[j - n];
    }
    forall i, j | 0 <= i < j < |t| ensures Newer(t[i], t[j]) {
      assert Newer(s[n + i], s[n + j]);
    }
  }

  /** The page names the last run on it, which is one of m's. */
  ghost predicate NamesLast(p: Page, m: Runs) {
    && p.Page?
    && (p.next.Some? ==>
          && p.finished != []
          && p.next == CursorOf(p.finished[|p.finished| - 1])
          && Key(p.finished[|p.finished| - 1].finishedAt, p.finished[|p.finished| - 1].uid) in KeysOf(m))
  }

  lemma CutNamesLast(live: seq<Run>, m: Runs, s: seq<Key>, limit: nat, full: bool)
    requires WellTimed(m) && forall i {:trigger s[i]} :: 0 <= i < |s| ==> s[i].uid in m && m[s[i].uid].finishedAt == s[i].time
    ensures NamesLast(Cut(live, m, s, limit, full), m)
  {
    var n := Min(|s|, limit);
    if n > 0 {
      assert m[s[n - 1].uid].finishedAt.Some? && m[s[n - 1].uid].uid == s[n - 1].uid;
      assert KeyAt(m, s[n - 1].uid) in KeysOf(m);
    }
  }

  lemma LastIsNamed(cluster: Runs, history: Runs, q: Query)
    requires Steady(cluster, history)
    ensures NamesLast(PageOf(cluster, history, q), Candidates(cluster, history, q))
  {
    var m := Candidates(cluster, history, q);
    ListingHas(m);
    CandidatesAreTimed(cluster, history, q);
    var live := if WantsLive(q) then LiveListing(cluster, q) else [];
    CutNamesLast(live, m, Listing(KeysOf(m)), q.limit, |StoreAnswer(history, q)| >= q.limit);
  }

  lemma EverythingAt(cluster: Runs, history: Runs, q: Query, n: nat)
    requires n < |Listing(KeysOf(Union(cluster, history, q)))|
    ensures var all := Union(cluster, history, q);
            && n < |Everything(cluster, history, q)|
            && Listing(KeysOf(all))[n].uid in all
            && Everything(cluster, history, q)[n] == all[Listing(KeysOf(all))[n].uid]
  {
    ListingHas(Union(cluster, history, q));
  }

  /** That run has a place in what is left. */
  lemma PlaceOfLast(cluster: Runs, history: Runs, q: Query) returns (n: nat)
    requires Steady(cluster, history)
    ensures PageOf(cluster, history, q).Page?
    ensures PageOf(cluster, history, q).next.Some? ==>
              var all := Everything(cluster, history, q); 0 < n <= |all| && PageOf(cluster, history, q).next == CursorOf(all[n - 1])
  {
    LastIsNamed(cluster, history, q);
    var p := PageOf(cluster, history, q);
    n := 0;
    if p.next.Some? {
      CandidatesAreOfUnion(cluster, history, q);
      CandidatesAreTimed(cluster, history, q);
      var r := p.finished[|p.finished| - 1];
      n := PlaceOfKey(Union(cluster, history, q), Key(r.finishedAt, r.uid));
      EverythingAt(cluster, history, q, n - 1);
    }
  }

  lemma PlaceOfKey(all: Runs, k: Key) returns (n: nat)
    requires WellTimed(all) && k in KeysOf(all)
    ensures Lists(KeysOf(all), Listing(KeysOf(all))) && 0 < n <= |Listing(KeysOf(all))| && Listing(KeysOf(all))[n - 1] == k
    ensures all[k.uid].finishedAt == k.time && all[k.uid].uid == k.uid
  {
    ListingHas(all);
    var t := Listing(KeysOf(all));
    var j :| 0 <= j < |t| && t[j] == k;
    n := j + 1;
  }

  /** So what is left behind it gets less. */
  lemma CursorAdvances(cluster: Runs, history: Runs, q: Query)
    requires Steady(cluster, history) && q.limit >= 1
    ensures var p := PageOf(cluster, history, q);
            p.Page? && (p.next.Some? ==> |Everything(cluster, history, q.(cursor := p.next))| < |Everything(cluster, history, q)|)
  {
    var n := PlaceOfLast(cluster, history, q);
    if PageOf(cluster, history, q).next.Some? {
      RestOfEverything(cluster, history, q, n, Everything(cluster, history, q)[n - 1]);
    }
  }

  /** After a right page with a cursor comes the page that begins where it ended. */
  lemma PageStep(cluster: Runs, history: Runs, q: Query)
    requires Steady(cluster, history) && q.limit >= 1
    requires IsRight(PageOf(cluster, history, q), Everything(cluster, history, q))
    ensures var all, p := Everything(cluster, history, q), PageOf(cluster, history, q);
            p.next.Some? ==> all == p.finished + Everything(cluster, history, q.(cursor := p.next))
  {
    var all, p := Everything(cluster, history, q), PageOf(cluster, history, q);
    RightStep(p, all);
    if p.next.Some? {
      RestOfEverything(cluster, history, q, |p.finished|, all[|p.finished| - 1]);
    }
  }

  lemma RightStep(p: Page, all: seq<Run>)
    requires IsRight(p, all)
    ensures var n := |p.finished|;
            && n <= |all| && all == p.finished + all[n..]
            && (p.next.Some? ==> n > 0 && p.next == CursorOf(all[n - 1]))
  {
    var n := |p.finished|;
    assert p.finished == all[..n];
    assert n > 0 ==> p.finished[n - 1] == all[n - 1];
  }

  /** The pages a client gets that follows the cursors to the end; there is an end whatever the pages hold. */
  ghost function Pages(cluster: Runs, history: Runs, q: Query): (pages: seq<Page>)
    requires Steady(cluster, history) && q.limit >= 1
    decreases |Everything(cluster, history, q)|
  {
    CursorAdvances(cluster, history, q);
    var p := PageOf(cluster, history, q);
    if p.next.None? then [p] else [p] + Pages(cluster, history, q.(cursor := p.next))
  }

  /** Every page on the way is right. */
  ghost predicate AllRight(cluster: Runs, history: Runs, q: Query)
    requires Steady(cluster, history) && q.limit >= 1
    decreases |Everything(cluster, history, q)|
  {
    CursorAdvances(cluster, history, q);
    var p := PageOf(cluster, history, q);
    IsRight(p, Everything(cluster, history, q)) && (p.next.Some? ==> AllRight(cluster, history, q.(cursor := p.next)))
  }

  /** On every page the handler's guard holds. */
  ghost predicate AllGuarded(cluster: Runs, history: Runs, q: Query)
    requires Steady(cluster, history) && q.limit >= 1
    decreases |Everything(cluster, history, q)|
  {
    CursorAdvances(cluster, history, q);
    var p := PageOf(cluster, history, q);
    IsGuarded(cluster, history, q) && (p.next.Some? ==> AllGuarded(cluster, history, q.(cursor := p.next)))
  }

  function FinishedOf(pages: seq<Page>): seq<Run> {
    if pages == [] then [] else (if pages[0].Page? then pages[0].finished else []) + FinishedOf(pages[1..])
  }

  lemma FinishedOfCons(p: Page, pages: seq<Page>)
    requires p.Page?
    ensures FinishedOf([p] + pages) == p.finished + FinishedOf(pages)
  {
    assert ([p] + pages)[1..] == pages;
  }

  lemma FinishedOfPages(cluster: Runs, history: Runs, q: Query)
    requires Steady(cluster, history) && q.limit >= 1
    ensures var p := PageOf(cluster, history, q);
            && p.Page?
            && FinishedOf(Pages(cluster, history, q)) ==
               if p.next.None? then p.finished else p.finished + FinishedOf(Pages(cluster, history, q.(cursor := p.next)))
  {
    CursorAdvances(cluster, history, q);
    var p := PageOf(cluster, history, q);
    if p.next.None? {
      FinishedOfCons(p, []);
      assert [p] + [] == [p];
      ConcatEmpty(p.finished);
    } else {
      FinishedOfCons(p, Pages(cluster, history, q.(cursor := p.next)));
    }
  }

  /** Following the cursors ends after at most as many pages as there are runs, and one. */
  lemma {:induction false} PagesEnd(cluster: Runs, history: Runs, q: Query)
    requires Steady(cluster, history) && q.limit >= 1
    ensures |Pages(cluster, history, q)| <= |Everything(cluster, history, q)| + 1
    decreases |Everything(cluster, history, q)|
  {
    CursorAdvances(cluster, history, q);
    var p := PageOf(cluster, history, q);
    if p.next.Some? {
      PagesEnd(cluster, history, q.(cursor := p.next));
    }
  }

  /** Followed to the end, right pages give every finished run once, newest first. */
  lemma {:induction false} RightPagesGiveEverything(cluster: Runs, history: Runs, q: Query)
    requires Steady(cluster, history) && q.limit >= 1 && AllRight(cluster, history, q)
    ensures FinishedOf(Pages(cluster, history, q)) == Everything(cluster, history, q)
    decreases |Everything(cluster, history, q)|
  {
    CursorAdvances(cluster, history, q);
    FinishedOfPages(cluster, history, q);
    PageStep(cluster, history, q);
    var p := PageOf(cluster, history, q);
    if p.next.Some? {
      RightPagesGiveEverything(cluster, history, q.(cursor := p.next));
    }
  }

  lemma {:induction false} EverythingNeedsRightPages(cluster: Runs, history: Runs, q: Query)
    requires Steady(cluster, history) && q.limit >= 1
    requires FinishedOf(Pages(cluster, history, q)) == Everything(cluster, history, q)
    ensures AllRight(cluster, history, q)
    decreases |Everything(cluster, history, q)|
  {
    CursorAdvances(cluster, history, q);
    FinishedOfPages(cluster, history, q);
    LastIsNamed(cluster, history, q);
    var p := PageOf(cluster, history, q);
    if p.next.Some? {
      PageStep(cluster, history, q);
      var rest := Everything(cluster, history, q.(cursor := p.next));
      SameRest(p.finished, rest, FinishedOf(Pages(cluster, history, q.(cursor := p.next))));
      EverythingNeedsRightPages(cluster, history, q.(cursor := p.next));
    }
  }

  lemma SameRest(a: seq<Run>, b: seq<Run>, c: seq<Run>)
    requires a + b == a + c
    ensures b == c
  {
    assert (a + b)[|a|..] == b && (a + c)[|a|..] == c;
  }

  /** A client that follows the cursors gets every finished run once, newest first, exactly when every page is right. */
  lemma PagesGiveEverything(cluster: Runs, history: Runs, q: Query)
    requires Steady(cluster, history) && q.limit >= 1
    ensures FinishedOf(Pages(cluster, history, q)) == Everything(cluster, history, q) <==> AllRight(cluster, history, q)
  {
    if AllRight(cluster, history, q) {
      RightPagesGiveEverything(cluster, history, q);
    }
    if FinishedOf(Pages(cluster, history, q)) == Everything(cluster, history, q) {
      EverythingNeedsRightPages(cluster, history, q);
    }
  }

  lemma {:induction false} GuardedPagesAreRight(cluster: Runs, history: Runs, q: Query)
    requires Steady(cluster, history) && q.limit >= 1 && AllGuarded(cluster, history, q)
    ensures AllRight(cluster, history, q)
    decreases |Everything(cluster, history, q)|
  {
    CursorAdvances(cluster, history, q);
    GuardedIsRight(cluster, history, q);
    var p := PageOf(cluster, history, q);
    if p.next.Some? {
      GuardedPagesAreRight(cluster, history, q.(cursor := p.next));
    }
  }

  /** No run is both in the store and live in the cluster. */
  ghost predicate NoneBoth(cluster: Runs, history: Runs) {
    forall u {:trigger cluster[u]} :: u in cluster && u in history ==> IsTerminal(cluster[u].phase)
  }

  /** While no stored run still shows as live, every page is right. */
  lemma {:induction false} NoneBothIsRight(cluster: Runs, history: Runs, q: Query)
    requires Steady(cluster, history) && q.limit >= 1 && NoneBoth(cluster, history)
    ensures AllRight(cluster, history, q)
    decreases |Everything(cluster, history, q)|
  {
    CursorAdvances(cluster, history, q);
    StoreAnswerUids(history, q);
    forall u | u in Uids(StoreAnswer(history, q)) ensures u !in LiveUids(cluster, q) {
      assert u in history;
      assert u in cluster ==> IsTerminal(cluster[u].phase);
    }
    PageIsTop(cluster, history, q);
    var p := PageOf(cluster, history, q);
    if p.next.Some? {
      NoneBothIsRight(cluster, history, q.(cursor := p.next));
    }
  }

  ghost predicate NoLive(pages: seq<Page>) {
    forall i {:trigger pages[i]} :: 0 <= i < |pages| ==> pages[i].Page? && pages[i].live == []
  }

  lemma NoLiveAfterCursor(cluster: Runs, history: Runs, q: Query)
    requires q.cursor.Some?
    ensures PageOf(cluster, history, q).Page? ==> PageOf(cluster, history, q).live == []
  {}

  lemma NoLiveCons(p: Page, rest: seq<Page>)
    requires p.Page? && p.live == [] && NoLive(rest)
    ensures NoLive([p] + rest)
  {}

  lemma {:induction false} NoLiveLater(cluster: Runs, history: Runs, q: Query)
    requires Steady(cluster, history) && q.limit >= 1 && q.cursor.Some?
    ensures NoLive(Pages(cluster, history, q))
    decreases |Everything(cluster, history, q)|
  {
    CursorAdvances(cluster, history, q);
    NoLiveAfterCursor(cluster, history, q);
    var p := PageOf(cluster, history, q);
    if p.next.Some? {
      NoLiveLater(cluster, history, q.(cursor := p.next));
      NoLiveCons(p, Pages(cluster, history, q.(cursor := p.next)));
    }
  }

  /** Live runs stand on the first page only. */
  lemma LiveOnlyFirst(cluster: Runs, history: Runs, q: Query)
    requires Steady(cluster, history) && q.limit >= 1
    ensures Pages(cluster, history, q) != [] && NoLive(Pages(cluster, history, q)[1..])
  {
    CursorAdvances(cluster, history, q);
    var p := PageOf(cluster, history, q);
    if p.next.Some? {
      NoLiveLater(cluster, history, q.(cursor := p.next));
    }
  }

  /** Everything has each run of the union once, newest first. */
  lemma EverythingIsSorted(cluster: Runs, history: Runs, q: Query)
    requires Steady(cluster, history)
    ensures var all := Everything(cluster, history, q);
            && (forall i, j :: 0 <= i < j < |all| ==>
                  all[i].uid != all[j].uid && Newer(Key(all[i].finishedAt, all[i].uid), Key(all[j].finishedAt, all[j].uid)))
            && (forall r: Run :: r in all <==> r.uid in Union(cluster, history, q) && Union(cluster, history, q)[r.uid] == r)
  {
    var m := Union(cluster, history, q);
    var s := Listing(KeysOf(m));
    var all := Everything(cluster, history, q);
    ListingHas(m);
    forall i | 0 <= i < |all| ensures s[i] == Key(all[i].finishedAt, all[i].uid) && m[all[i].uid] == all[i] {
      assert all[i] == m[s[i].uid];
    }
    forall i, j | 0 <= i < j < |all|
      ensures all[i].uid != all[j].uid && Newer(Key(all[i].finishedAt, all[i].uid), Key(all[j].finishedAt, all[j].uid))
    {
      assert Newer(s[i], s[j]);
      NewerTotal(s[i], s[j]);
      NewerTotal(s[i], s[i]);
    }
    forall r: Run | r.uid in m && m[r.uid] == r ensures r in all {
      assert Key(r.finishedAt, r.uid) in KeysOf(m);
      var i :| 0 <= i < |s| && s[i] == Key(r.finishedAt, r.uid);
      assert all[i] == r;
    }
  }

  // ----- Where the listing ends early -------------------------------------------------

  /** A page whose store rows all show as live in the cluster is empty and names no next one. */
  lemma LiveRowsEndTheListing(cluster: Runs, history: Runs, q: Query)
    requires Uids(StoreAnswer(history, q)) <= LiveUids(cluster, q) && Finished(cluster, q) == map[]
    ensures PageOf(cluster, history, q).Page?
    ensures PageOf(cluster, history, q).finished == [] && PageOf(cluster, history, q).next == None
  {
    var m := Candidates(cluster, history, q);
    assert m == map[];
    ListingHas(m);
  }

  lemma OneListing(k: Key)
    ensures Listing({k}) == [k]
  {
    ListingLists({k});
    assert Lists({k}, [k]);
    ListsUnique({k}, Listing({k}), [k], 0);
  }

  lemma TwoListing(a: Key, b: Key)
    requires Newer(a, b)
    ensures Listing({a, b}) == [a, b]
  {
    ListingLists({a, b});
    assert Lists({a, b}, [a, b]);
    ListsUnique({a, b}, Listing({a, b}), [a, b], 0);
  }

  /** Two rows, the newer of which still shows as live in the cluster. */
  function TwoRows(r: Run): Runs {
    map["a" := r.(uid := "a", finishedAt := Some(2), phase := Passed), "b" := r.(uid := "b", finishedAt := Some(1), phase := Passed)]
  }

  const ONE_AT_A_TIME: Query := Query("", "", Unset, "", "", 1, None, None)

  lemma AnswerIsTheNewer(r: Run)
    ensures Rows(TwoRows(r), ONE_AT_A_TIME) == TwoRows(r)
    ensures StoreAnswer(TwoRows(r), ONE_AT_A_TIME) == [Key(Some(2), "a")] && Uids([Key(Some(2), "a")]) == {"a"}
  {
    var history, q := TwoRows(r), ONE_AT_A_TIME;
    var ka, kb := Key(Some(2), "a"), Key(Some(1), "b");
    assert Rows(history, q) == history && history.Keys == {"a", "b"};
    assert KeysOf(history) == {ka, kb} by {
      assert forall u {:trigger history[u]} :: u in history ==> Key(history[u].finishedAt, u) in {ka, kb};
      assert KeyAt(history, "a") == ka && KeyAt(history, "b") == kb;
    }
    TwoListing(ka, kb);
    assert Uids([ka]) == {"a"} by { assert [ka][0] == ka; }
  }

  /** So an older finished run is never listed while the row before it still shows as live. */
  lemma HidesAnOlderRun(r: Run)
    ensures var cluster, history, q := map["a" := r.(uid := "a", phase := Running)], TwoRows(r), ONE_AT_A_TIME;
            && PageOf(cluster, history, q).Page?
            && PageOf(cluster, history, q).finished == [] && PageOf(cluster, history, q).next == None
            && "b" in Union(cluster, history, q)
  {
    var cluster, history, q := map["a" := r.(uid := "a", phase := Running)], TwoRows(r), ONE_AT_A_TIME;
    AnswerIsTheNewer(r);
    assert "a" in LiveUids(cluster, q);
    LiveRowsEndTheListing(cluster, history, q);
  }

  /** A cluster with a live run and an older finished one. */
  function LiveAndOlder(r: Run): Runs {
    map["a" := r.(uid := "a", phase := Running), "c" := r.(uid := "c", finishedAt := Some(0), phase := Passed)]
  }

  lemma OlderIsTheCandidate(r: Run)
    ensures var m := Candidates(LiveAndOlder(r), TwoRows(r), ONE_AT_A_TIME);
            && m == map["c" := LiveAndOlder(r)["c"]] && Listing(KeysOf(m)) == [Key(Some(0), "c")]
  {
    AnswerIsTheNewer(r);
    assert "a" in LiveUids(LiveAndOlder(r), ONE_AT_A_TIME);
    var m := Candidates(LiveAndOlder(r), TwoRows(r), ONE_AT_A_TIME);
    assert m == map["c" := LiveAndOlder(r)["c"]];
    assert KeysOf(m) == {Key(Some(0), "c")} by {
      assert KeyAt(m, "c") == Key(Some(0), "c");
    }
    OneListing(Key(Some(0), "c"));
  }

  /** Nor is it behind a page that is not empty: an older run of the cluster takes its place, and the cursor passes it. */
  lemma PassesOverARun(r: Run)
    ensures var cluster, history, q := LiveAndOlder(r), TwoRows(r), ONE_AT_A_TIME;
            && PageOf(cluster, history, q).Page?
            && PageOf(cluster, history, q).finished == [cluster["c"]]
            && PageOf(cluster, history, q).next == Some(Cursor(0, "c"))
            && "b" in Union(cluster, history, q) && !Past(Some(Cursor(0, "c")), Union(cluster, history, q)["b"])
  {
    OlderIsTheCandidate(r);
    AnswerIsTheNewer(r);
    ListingHas(Candidates(LiveAndOlder(r), TwoRows(r), ONE_AT_A_TIME));
  }

  /** What a cursor has passed is on no later page. */
  lemma {:induction false} OnlyPast(cluster: Runs, history: Runs, q: Query, r: Run)
    requires Steady(cluster, history) && q.limit >= 1 && r in FinishedOf(Pages(cluster, history, q))
    ensures Past(q.cursor, r)
    decreases |Everything(cluster, history, q)|
  {
    FinishedOfPages(cluster, history, q);
    CursorAdvances(cluster, history, q);
    var p := PageOf(cluster, history, q);
    if r in p.finished {
      OnPageIsPast(cluster, history, q, r);
    } else {
      OnlyPast(cluster, history, q.(cursor := p.next), r);
      PastTheNext(cluster, history, q, r);
    }
  }

  lemma PastTheNext(cluster: Runs, history: Runs, q: Query, r: Run)
    requires Steady(cluster, history) && PageOf(cluster, history, q).Page? && PageOf(cluster, history, q).next.Some?
    requires Past(PageOf(cluster, history, q).next, r)
    ensures Past(q.cursor, r)
  {
    LastIsNamed(cluster, history, q);
    var p := PageOf(cluster, history, q);
    var last := p.finished[|p.finished| - 1];
    OnPageIsPast(cluster, history, q, last);
    PastFurther(q.cursor, last, r);
  }

  lemma OnPageIsPast(cluster: Runs, history: Runs, q: Query, r: Run)
    requires Steady(cluster, history) && PageOf(cluster, history, q).Page? && r in PageOf(cluster, history, q).finished
    ensures Past(q.cursor, r) && r.finishedAt.Some?
  {
    var m := Candidates(cluster, history, q);
    ListingHas(m);
    var s := Listing(KeysOf(m));
    var i :| 0 <= i < Min(|s|, q.limit) && m[s[i].uid] == r;
    CandidatesArePast(cluster, history, q, s[i].uid);
  }

  lemma CandidatesArePast(cluster: Runs, history: Runs, q: Query, u: string)
    requires Steady(cluster, history) && u in Candidates(cluster, history, q)
    ensures var r := Candidates(cluster, history, q)[u]; Past(q.cursor, r) && r.finishedAt.Some?
  {
    StoreAnswerUids(history, q);
  }

  // ----- Handling a request -----------------------------------------------------------

  /** Splits the cluster's matching runs; the API server lists them in no particular order. */
  method CollectClusterRuns(cluster: Runs, q: Query) returns (live: set<string>, finished: Runs, liveUids: set<string>)
    ensures live == if WantsLive(q) then LiveUids(cluster, q) else {}
    ensures finished == Finished(cluster, q)
    ensures liveUids == LiveUids(cluster, q)
  {
    live, finished, liveUids := {}, map[], {};
    var rest := cluster.Keys;
    while rest != {}
      invariant rest <= cluster.Keys
      invariant live == if WantsLive(q) then liveUids else {}
      invariant forall u {:trigger u in finished} :: (u in finished <==> u in Finished(cluster, q) && u !in rest) && (u in finished ==> finished[u] == cluster[u])
      invariant forall u {:trigger u in liveUids} :: u in liveUids <==> u in LiveUids(cluster, q) && u !in rest
      decreases rest
    {
      var u :| u in rest;
      rest := rest - {u};
      var r := cluster[u];
      if !Matches(q, r) {
        continue;
      }
      if !IsTerminal(r.phase) {
        liveUids := liveUids + {u};
        if WantsLive(q) {
          live := live + {u};
        }
        continue;
      }
      if WantsFinished(q) && FinishedAfterOK(q, r) && Past(q.cursor, r) {
        finished := finished[u := r];
      }
    }
  }

  /** Adds the store's answer to the cluster's finished runs; full tells that there may be more rows. */
  method MergeStoreRuns(rows: seq<Run>, q: Query, finished: Runs, liveUids: set<string>,
                        ghost cluster: Runs, ghost history: Runs)
    returns (merged: Runs, full: bool)
    requires finished == Finished(cluster, q) && liveUids == LiveUids(cluster, q) && q.limit >= 1
    requires forall u {:trigger history[u]} :: u in history ==> history[u].uid == u
    requires |rows| == |StoreAnswer(history, q)|
    requires forall i {:trigger rows[i]} :: 0 <= i < |rows| ==>
               rows[i].uid == StoreAnswer(history, q)[i].uid && rows[i].uid in history && rows[i] == history[rows[i].uid]
    ensures merged == Candidates(cluster, history, q)
    ensures full == (|StoreAnswer(history, q)| >= q.limit)
  {
    merged := finished;
    StoreAnswerUids(history, q);
    if !WantsFinished(q) {
      assert Rows(history, q) == map[];
      return merged, false;
    }
    ghost var seen: set<string> := {};
    for i := 0 to |rows|
      invariant seen == Uids(StoreAnswer(history, q)[..i]) && seen <= history.Keys
      invariant merged == Merged(cluster, history, seen, q)
    {
      var u := rows[i].uid;
      SeenGrows(StoreAnswer(history, q), i);
      MergeOne(cluster, history, seen, q, u);
      seen := seen + {u};
      if u in merged {
        merged := merged[u := merged[u].(comment := rows[i].comment)];
      } else if u !in liveUids {
        merged := merged[u := rows[i]];
      }
    }
    assert StoreAnswer(history, q)[..|rows|] == StoreAnswer(history, q);
    full := |rows| >= q.limit;
  }

  /** What one more row of the answer changes. */
  lemma MergeOne(cluster: Runs, history: Runs, seen: set<string>, q: Query, u: string)
    requires seen <= history.Keys && u in history
    ensures var m := Merged(cluster, history, seen, q);
            Merged(cluster, history, seen + {u}, q)
            == if u in m then m[u := m[u].(comment := history[u].comment)]
               else if u !in LiveUids(cluster, q) then m[u := history[u]]
               else m
  {
    var m, m2 := Merged(cluster, history, seen, q), Merged(cluster, history, seen + {u}, q);
    forall v | v != u ensures (v in m2 <==> v in m) && (v in m ==> m2[v] == m[v]) {}
  }

  lemma SeenGrows(s: seq<Key>, i: nat)
    requires i < |s|
    ensures Uids(s[..i + 1]) == Uids(s[..i]) + {s[i].uid}
  {
    assert forall j {:trigger s[..i + 1][j]} :: 0 <= j < i ==> s[..i + 1][j] == s[..i][j];
    assert s[..i + 1][i] == s[i];
  }

  /** Sorts, by inserting one after another. */
  method SortNewestFirst(keys: set<Key>) returns (s: seq<Key>)
    ensures s == Listing(keys)
  {
    s := [];
    var rest := keys;
    while rest != {}
      invariant rest <= keys && Lists(keys - rest, s)
      decreases rest
    {
      var k :| k in rest;
      var i := 0;
      while i < |s| && Newer(s[i], k)
        invariant 0 <= i <= |s| && forall j {:trigger s[j]} :: 0 <= j < i ==> Newer(s[j], k)
      {
        i := i + 1;
      }
      InsertLists(keys - rest, s, k, i);
      assert keys - (rest - {k}) == keys - rest + {k};
      s := Inserted(s, k, i);
      rest := rest - {k};
    }
    assert keys - rest == keys;
    ListingLists(keys);
    ListsUnique(keys, s, Listing(keys), 0);
  }

  function Inserted(s: seq<Key>, k: Key, i: nat): seq<Key>
    requires i <= |s|
  {
    s[..i] + [k] + s[i..]
  }

  lemma InsertDescends(s: seq<Key>, k: Key, i: nat)
    requires Descending(s) && i <= |s|
    requires forall j {:trigger s[j]} :: 0 <= j < i ==> Newer(s[j], k)
    requires forall j {:trigger s[j]} :: i <= j < |s| ==> Newer(k, s[j])
    ensures Descending(Inserted(s, k, i))
  {
    var t := Inserted(s, k, i);
    forall a, b | 0 <= a < b < |t| ensures Newer(t[a], t[b]) {
      var x, y := if a <= i then a else a - 1, if b <= i then b else b - 1;
      if a != i && b != i {
        assert t[a] == s[x] && t[b] == s[y] && Newer(s[x], s[y]);
      }
    }
  }

  lemma InsertLists(ks: set<Key>, s: seq<Key>, k: Key, i: nat)
    requires Lists(ks, s) && k !in ks && i <= |s|
    requires forall j {:trigger s[j]} :: 0 <= j < i ==> Newer(s[j], k)
    requires i < |s| ==> !Newer(s[i], k)
    ensures Lists(ks + {k}, Inserted(s, k, i))
  {
    var t := Inserted(s, k, i);
    forall j | i <= j < |s| ensures Newer(k, s[j]) {
      NewerTotal(s[i], k);
      if j > i {
        assert Newer(s[i], s[j]);
        NewerTransitive(k, s[i], s[j]);
      }
    }
    InsertDescends(s, k, i);
    forall v | v in ks ensures v in t {
      var j :| 0 <= j < |s| && s[j] == v;
      assert t[if j < i then j else j + 1] == v;
    }
    assert t[i] == k;
  }

  /** One request: the page it is answered with. */
  method ListRuns(cluster: Runs, rows: seq<Run>, q: Query, ghost history: Runs) returns (page: Page)
    requires q.limit >= 1
    requires forall u {:trigger history[u]} :: u in history ==> history[u].uid == u
    requires |rows| == |StoreAnswer(history, q)|
    requires forall i {:trigger rows[i]} :: 0 <= i < |rows| ==>
               rows[i].uid == StoreAnswer(history, q)[i].uid && rows[i].uid in history && rows[i] == history[rows[i].uid]
    ensures page == PageOf(cluster, history, q)
  {
    var live, finished, liveUids := CollectClusterRuns(cluster, q);
    var merged, full := MergeStoreRuns(rows, q, finished, liveUids, cluster, history);
    var byStart := set u | u in live :: Key(cluster[u].startedAt, u);
    var liveOut := SortNewestFirst(byStart);
    ListingLists(byStart);
    var finishedOut := SortNewestFirst(KeysOf(merged));
    ListingHas(merged);
    assert WantsLive(q) ==> byStart == set u | u in LiveUids(cluster, q) :: Key(cluster[u].startedAt, u);
    assert !WantsLive(q) ==> byStart == {};
    page := CutPage(RunsAt(cluster, liveOut), merged, finishedOut, q.limit, full);
  }

  method CutPage(live: seq<Run>, merged: Runs, finishedOut: seq<Key>, limit: nat, full: bool) returns (page: Page)
    requires forall i {:trigger finishedOut[i]} :: 0 <= i < |finishedOut| ==> finishedOut[i].uid in merged
    ensures page == Cut(live, merged, finishedOut, limit, full)
  {
    var more := full || |finishedOut| > limit;
    var out := finishedOut;
    if |out| > limit {
      out := out[..limit];
    }
    assert out == finishedOut[..Min(|finishedOut|, limit)];
    if more && |out| > 0 {
      var last := out[|out| - 1];
      if last.time.None? {
        return Crash;
      }
      return Page(live, RunsAt(merged, out), Some(Cursor(last.time.value, last.uid)));
    }
    return Page(live, RunsAt(merged, out), None);
  }
}
