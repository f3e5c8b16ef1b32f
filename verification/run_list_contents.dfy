/** What a listing shows, said of the request and the runs alone. */
module RunListContents {
  import opened Bytes
  import opened Phases
  import opened Order
  import opened RunList

  // ----- What a request asks for ------------------------------------------------------

  /** The run has the namespace, Test, phase, source and parent that are asked for. */
  predicate Asked(q: Query, r: Run) {
    && (q.ns != "" ==> q.ns == r.ns)
    && (q.testRef != "" ==> q.testRef == r.testRef)
    && (q.phase != Unset ==> q.phase == r.phase)
    && (q.source != "" ==> q.source == r.source)
    && (q.parent != "" ==> q.parent == r.parent)
  }

  predicate Ended(p: Phase) {
    p in {Passed, Failed, Error, Aborted}
  }

  /** A finished run that is asked for, finished no earlier than wanted, and comes after the cursor. */
  ghost predicate AskedFinished(q: Query, r: Run) {
    && Asked(q, r) && (q.phase == Unset || Ended(q.phase))
    && (q.finishedAfter.Some? ==> r.finishedAt.Some? && q.finishedAfter.value <= r.finishedAt.value)
    && (q.cursor.Some? ==>
          && r.finishedAt.Some?
          && (r.finishedAt.value < q.cursor.value.finishedAt
              || (r.finishedAt.value == q.cursor.value.finishedAt && Precedes(r.uid, q.cursor.value.uid))))
  }

  /** The cluster has the run finished. */
  ghost predicate InCluster(cluster: Runs, q: Query, u: string) {
    u in cluster && Ended(cluster[u].phase) && AskedFinished(q, cluster[u])
  }

  /** The store has the run, and it does not show as live. */
  ghost predicate InStore(cluster: Runs, history: Runs, q: Query, u: string) {
    u in history && AskedFinished(q, history[u]) && !(u in cluster && !Ended(cluster[u].phase) && Asked(q, cluster[u]))
  }

  lemma ShownIsAsked(q: Query, r: Run)
    ensures Shown(q, r) <==> AskedFinished(q, r)
    ensures ShownLive(q, r) <==> Asked(q, r) && !Ended(r.phase)
  {
    if q.cursor.Some? {
      LessIsPrecedes(r.uid, q.cursor.value.uid);
    }
  }

  /**
   What the pages are to list: every finished run of either source that is asked for; as
   the cluster has it, with the comment of the store, or else as the store has it.
   */
  lemma ListedExactly(cluster: Runs, history: Runs, q: Query, r: Run)
    requires Steady(cluster, history)
    ensures r in Everything(cluster, history, q) <==>
            if InCluster(cluster, q, r.uid) then
              r == if InStore(cluster, history, q, r.uid) then cluster[r.uid].(comment := history[r.uid].comment) else cluster[r.uid]
            else
              InStore(cluster, history, q, r.uid) && r == history[r.uid]
  {
    EverythingIsSorted(cluster, history, q);
    UnionAt(cluster, history, q, r.uid);
    if r.uid in cluster {
      ShownIsAsked(q, cluster[r.uid]);
    }
    if r.uid in history {
      ShownIsAsked(q, history[r.uid]);
    }
  }

  // ----- The order --------------------------------------------------------------------

  /** The later time first, no time last, and between equal times the greater uid first. */
  ghost predicate NewestFirst(ta: Option<int>, ua: string, tb: Option<int>, ub: string) {
    match (ta, tb)
    case (Some(a), Some(b)) => a > b || (a == b && Precedes(ub, ua))
    case (Some(_), None) => true
    case (None, Some(_)) => false
    case (None, None) => Precedes(ub, ua)
  }

  lemma NewerIsNewestFirst(a: Key, b: Key)
    ensures Newer(a, b) <==> NewestFirst(a.time, a.uid, b.time, b.uid)
  {
    LessIsPrecedes(b.uid, a.uid);
  }

  /** They are listed newest finished first, each once. */
  lemma ListedNewestFirst(cluster: Runs, history: Runs, q: Query, i: nat, j: nat)
    requires Steady(cluster, history) && i < j < |Everything(cluster, history, q)|
    ensures var a, b := Everything(cluster, history, q)[i], Everything(cluster, history, q)[j];
            a.uid != b.uid && NewestFirst(a.finishedAt, a.uid, b.finishedAt, b.uid)
  {
    EverythingIsSorted(cluster, history, q);
    var a, b := Everything(cluster, history, q)[i], Everything(cluster, history, q)[j];
    NewerIsNewestFirst(Key(a.finishedAt, a.uid), Key(b.finishedAt, b.uid));
  }

  // ----- Live runs --------------------------------------------------------------------

  /** Requests for live runs: the first page, without a bound on the finish time and for no terminal phase. */
  predicate AsksLive(q: Query) {
    q.cursor == None && q.finishedAfter == None && q.phase !in {Passed, Failed, Error, Aborted}
  }

  /** A live run of the cluster that is asked for. */
  predicate LiveAsked(cluster: Runs, q: Query, r: Run) {
    r.uid in cluster && r == cluster[r.uid] && r.phase !in {Passed, Failed, Error, Aborted} && Asked(q, r)
  }

  /** A page shows exactly the live runs that are asked for, the latest started first; or none where live runs are not. */
  lemma LiveExactly(cluster: Runs, history: Runs, q: Query)
    requires Steady(cluster, history) && PageOf(cluster, history, q).Page?
    ensures var live := PageOf(cluster, history, q).live;
            && (forall r: Run :: r in live <==> AsksLive(q) && LiveAsked(cluster, q, r))
            && (forall i, j :: 0 <= i < j < |live| ==> NewestFirst(live[i].startedAt, live[i].uid, live[j].startedAt, live[j].uid))
  {
    if WantsLive(q) {
      LiveListed(cluster, q);
    }
  }

  lemma LiveListed(cluster: Runs, q: Query)
    requires forall u {:trigger cluster[u]} :: u in cluster ==> cluster[u].uid == u
    ensures var live := LiveListing(cluster, q);
            && (forall r: Run :: r in live <==> LiveAsked(cluster, q, r))
            && (forall i, j :: 0 <= i < j < |live| ==> NewestFirst(live[i].startedAt, live[i].uid, live[j].startedAt, live[j].uid))
  {
    var keys := set u | u in LiveUids(cluster, q) :: Key(cluster[u].startedAt, u);
    var s, live := Listing(keys), LiveListing(cluster, q);
    ListingLists(keys);
    forall i | 0 <= i < |s| ensures s[i] == Key(live[i].startedAt, live[i].uid) && LiveAsked(cluster, q, live[i]) {
      assert s[i] in keys && live[i] == cluster[s[i].uid];
      ShownIsAsked(q, live[i]);
    }
    forall r: Run | LiveAsked(cluster, q, r) ensures r in live {
      ShownIsAsked(q, r);
      assert Key(r.startedAt, r.uid) in keys;
      var i :| 0 <= i < |s| && s[i] == Key(r.startedAt, r.uid);
      assert live[i] == r;
    }
    forall i, j | 0 <= i < j < |live| ensures NewestFirst(live[i].startedAt, live[i].uid, live[j].startedAt, live[j].uid) {
      assert Newer(s[i], s[j]);
      NewerIsNewestFirst(s[i], s[j]);
    }
  }

  /** A client that follows the cursors sees a live run exactly when it is asked for, on the first page. */
  lemma LiveOnSomePage(cluster: Runs, history: Runs, q: Query, r: Run)
    requires Steady(cluster, history) && q.limit >= 1
    ensures var pages := Pages(cluster, history, q);
            (exists i :: 0 <= i < |pages| && pages[i].Page? && r in pages[i].live) <==> AsksLive(q) && LiveAsked(cluster, q, r)
  {
    var pages := Pages(cluster, history, q);
    CursorAdvances(cluster, history, q);
    LiveOnlyFirst(cluster, history, q);
    LiveExactly(cluster, history, q);
    assert pages[0] == PageOf(cluster, history, q);
    forall i | 0 < i < |pages| ensures pages[i].Page? && pages[i].live == [] {
      assert pages[i] == pages[1..][i - 1];
    }
  }

  // ----- The cursor -------------------------------------------------------------------

  lemma {:induction false} ListingSize(ks: set<Key>)
    ensures |Listing(ks)| == |ks|
    decreases ks
  {
    if ks != {} {
      ListingSize(ks - {Newest(ks)});
    }
  }

  lemma {:induction false} KeysSize(m: Runs)
    ensures |KeysOf(m)| == |m|
    decreases |m|
  {
    if m != map[] {
      var u :| u in m;
      var rest := m - {u};
      KeysSize(rest);
      assert m.Keys == rest.Keys + {u};
      assert KeysOf(m) == KeysOf(rest) + {Key(m[u].finishedAt, u)};
    }
  }

  /**
   There is a cursor exactly when there is something on the page, and the store has as many
   rows as the limit or there are more runs to choose from.
   */
  lemma CursorExactly(cluster: Runs, history: Runs, q: Query)
    requires Steady(cluster, history) && q.limit >= 1
    ensures PageOf(cluster, history, q).Page?
    ensures PageOf(cluster, history, q).next.Some? <==>
            |Candidates(cluster, history, q)| > 0
            && (|Rows(history, q)| >= q.limit || |Candidates(cluster, history, q)| > q.limit)
  {
    CursorAdvances(cluster, history, q);
    var m := Candidates(cluster, history, q);
    ListingSize(KeysOf(m));
    KeysSize(m);
    ListingSize(KeysOf(Rows(history, q)));
    KeysSize(Rows(history, q));
  }
}
