/**
 Fan-out of a tailer's frames to subscribers with bounded queues. The run loop appends a
 frame to the ring first and hands it to the subscribers second, so a Subscribe may come
 between the two; closing a channel happens after the lock that removed the subscriber
 was released, so an Unsubscribe or the end of the log may come between those two.
 */
module Fanout {
  import opened Bytes

  /** marker is set on a snapshot that does not reach back to the first byte. */
  datatype Frame = Frame(data: bytes, marker: bool)

  datatype Reason = Eof | Overflow | Unsubscribed

  /**
   A subscription: the frames waiting in its channel, those its reader took, and every
   close of the channel. The rest is what a proof remembers: how many frames the ring held
   when it joined, and which frames it was given since.
   */
  datatype Sub = Sub(queue: seq<Frame>, taken: seq<Frame>, closes: seq<Reason>,
                     joined: nat, first: nat, last: nat)
  {
    function Delivered(): seq<Frame> { taken + queue }
  }

  /**
   appended lists the frames in the ring, of which the first `fanned` were handed out;
   live are the registered subscriptions, and the three sets after it those removed but not
   closed yet by publish, Unsubscribe and finalize.
   */
  datatype Hub = Hub(appended: seq<bytes>, fanned: nat, subs: map<nat, Sub>, live: set<nat>,
                     dropping: set<nat>, leaving: set<nat>, ending: set<nat>,
                     nextId: nat, stopped: bool)

  datatype Limits = Limits(ringBytes: nat, queueLen: nat)
  {
    predicate Valid() { ringBytes >= 1 && queueLen >= 1 }
  }

  const EMPTY := Hub([], 0, map[], {}, {}, {}, {}, 0, false)

  // ----- Steps ------------------------------------------------------------------------

  /** What a new subscriber is sent first: the ring, unless it is empty. */
  function Snapshot(limits: Limits, appended: seq<bytes>): seq<Frame> {
    var all := Flatten(appended);
    var ring := LastN(all, limits.ringBytes);
    if ring == [] then [] else [Frame(ring, |all| > limits.ringBytes)]
  }

  function Subscribe(limits: Limits, h: Hub): Hub {
    var n := |h.appended|;
    var sub := if h.stopped then Sub([], [], [Eof], n, n, n)
               else Sub(Snapshot(limits, h.appended), [], [], n, h.fanned, h.fanned);
    h.(subs := h.subs[h.nextId := sub], nextId := h.nextId + 1,
       live := if h.stopped then h.live else h.live + {h.nextId})
  }

  predicate HasRoom(limits: Limits, s: Sub) {
    |s.queue| < limits.queueLen
  }

  /** A live subscription with room gets the frame; one without is removed. */
  function Offer(limits: Limits, s: Sub, frame: bytes): Sub {
    if HasRoom(limits, s) then s.(queue := s.queue + [Frame(frame, false)], last := s.last + 1) else s
  }

  function FanOut(limits: Limits, h: Hub): Hub
    requires h.fanned < |h.appended| && h.live <= h.subs.Keys
  {
    var full := set id | id in h.live && !HasRoom(limits, h.subs[id]);
    h.(fanned := h.fanned + 1, live := h.live - full, dropping := h.dropping + full,
       subs := map id | id in h.subs ::
                 if id in h.live then Offer(limits, h.subs[id], h.appended[h.fanned]) else h.subs[id])
  }

  function Close(h: Hub, id: nat, r: Reason): map<nat, Sub>
    requires id in h.subs
  {
    h.subs[id := h.subs[id].(closes := h.subs[id].closes + [r])]
  }

  function Take(h: Hub, id: nat): Hub
    requires id in h.subs && h.subs[id].queue != []
  {
    var s := h.subs[id];
    h.(subs := h.subs[id := s.(taken := s.taken + [s.queue[0]], queue := s.queue[1..])])
  }

  /** publish ran to its end: nothing appended is waiting, nothing dropped is still open. */
  predicate Idle(h: Hub) {
    h.fanned == |h.appended| && h.dropping == {}
  }

  datatype Event =
    | Appended(data: bytes) | FannedOut | ClosedDropped(id: nat)
    | Subscribed | Left(id: nat) | ClosedLeft(id: nat)
    | Finished | ClosedEnded(id: nat) | Taken(id: nat)

  ghost predicate Next(limits: Limits, h: Hub, e: Event, h': Hub) {
    match e
    case Appended(data) => Idle(h) && !h.stopped && data != [] && h' == h.(appended := h.appended + [data])
    case FannedOut => h.fanned < |h.appended| && h.live <= h.subs.Keys && h' == FanOut(limits, h)
    case ClosedDropped(id) =>
      id in h.dropping && id in h.subs && h' == h.(dropping := h.dropping - {id}, subs := Close(h, id, Overflow))
    case Subscribed => h' == Subscribe(limits, h)
    case Left(id) => h' == if id in h.live then h.(live := h.live - {id}, leaving := h.leaving + {id}) else h
    case ClosedLeft(id) =>
      id in h.leaving && id in h.subs && h' == h.(leaving := h.leaving - {id}, subs := Close(h, id, Unsubscribed))
    case Finished =>
      Idle(h) && !h.stopped && h' == h.(stopped := true, live := {}, ending := h.live)
    case ClosedEnded(id) =>
      id in h.ending && id in h.subs && h' == h.(ending := h.ending - {id}, subs := Close(h, id, Eof))
    case Taken(id) => id in h.subs && h.subs[id].queue != [] && h' == Take(h, id)
  }

  // ----- Invariant --------------------------------------------------------------------

  function Frames(datas: seq<bytes>): (r: seq<Frame>)
    ensures |r| == |datas| && forall i :: 0 <= i < |datas| ==> r[i] == Frame(datas[i], false)
  {
    seq(|datas|, i requires 0 <= i < |datas| => Frame(datas[i], false))
  }

  /** What a subscription was sent, in terms of what was appended. */
  ghost predicate SeesRun(limits: Limits, appended: seq<bytes>, s: Sub) {
    && s.first <= s.last <= |appended|
    && s.joined <= |appended|
    && s.first <= s.joined <= s.first + 1
    && s.Delivered() == Snapshot(limits, appended[..s.joined]) + Frames(appended[s.first..s.last])
  }

  /** A subscription that came after the end is closed at once and sent nothing. */
  predicate CameLate(h: Hub, s: Sub) {
    h.stopped && s.Delivered() == [] && s.closes == [Eof] && s.first == s.last == s.joined == |h.appended|
  }

  ghost predicate SubInv(limits: Limits, h: Hub, id: nat)
    requires id in h.subs
  {
    var s := h.subs[id];
    && (CameLate(h, s) || SeesRun(limits, h.appended, s))
    && (id in h.live + h.dropping + h.leaving + h.ending <==> s.closes == [])
    && |s.closes| <= 1
    && |s.queue| <= limits.queueLen
    && (id in h.live ==> s.last == h.fanned)
    && (id in h.ending || s.closes == [Eof] ==> s.last == |h.appended| && h.stopped)
  }

  ghost predicate Inv(limits: Limits, h: Hub) {
    && limits.Valid()
    && h.fanned <= |h.appended| <= h.fanned + 1
    && (h.stopped ==> h.live == {} && h.fanned == |h.appended|)
    && (forall id: nat {:trigger id in h.subs} :: id in h.subs <==> id < h.nextId)
    && h.live + h.dropping + h.leaving + h.ending <= h.subs.Keys
    && h.live !! h.dropping !! h.leaving !! h.ending
    && (h.ending != {} ==> h.stopped)
    && forall id {:trigger SubInv(limits, h, id)} :: id in h.subs ==> SubInv(limits, h, id)
  }

  lemma TakeKeepsDelivered(s: Sub)
    requires s.queue != []
    ensures s.(taken := s.taken + [s.queue[0]], queue := s.queue[1..]).Delivered() == s.Delivered()
  {
    assert s.queue == [s.queue[0]] + s.queue[1..];
    ConcatAssoc(s.taken, [s.queue[0]], s.queue[1..]);
  }

  lemma FramesSnoc(datas: seq<bytes>, x: bytes)
    ensures Frames(datas + [x]) == Frames(datas) + [Frame(x, false)]
  {}

  /** A longer history shows a subscription the same. */
  lemma SeesRunGrows(limits: Limits, appended: seq<bytes>, data: bytes, s: Sub)
    requires SeesRun(limits, appended, s)
    ensures SeesRun(limits, appended + [data], s)
  {
    assert (appended + [data])[..s.joined] == appended[..s.joined];
    assert (appended + [data])[s.first..s.last] == appended[s.first..s.last];
  }

  /** A frame handed to a live subscription follows the ones it already had. */
  lemma OfferFollows(limits: Limits, appended: seq<bytes>, fanned: nat, s: Sub)
    requires SeesRun(limits, appended, s) && s.last == fanned < |appended| && HasRoom(limits, s)
    ensures SeesRun(limits, appended, Offer(limits, s, appended[fanned]))
  {
    var s' := Offer(limits, s, appended[fanned]);
    assert appended[s.first..s'.last] == appended[s.first..s.last] + [appended[fanned]];
    FramesSnoc(appended[s.first..s.last], appended[fanned]);
    ConcatAssoc(s.taken, s.queue, [Frame(appended[fanned], false)]);
    ConcatAssoc(Snapshot(limits, appended[..s.joined]), Frames(appended[s.first..s.last]),
                [Frame(appended[fanned], false)]);
  }

  lemma AppendedKeeps(limits: Limits, h: Hub, data: bytes, h': Hub)
    requires Inv(limits, h) && Next(limits, h, Appended(data), h')
    ensures Inv(limits, h')
  {
    forall id | id in h'.subs ensures SubInv(limits, h', id) {
      assert SubInv(limits, h, id);
      SeesRunGrows(limits, h.appended, data, h.subs[id]);
    }
  }

  lemma FannedOutKeeps(limits: Limits, h: Hub, h': Hub)
    requires Inv(limits, h) && Next(limits, h, FannedOut, h')
    ensures Inv(limits, h')
  {
    forall id | id in h'.subs ensures SubInv(limits, h', id) {
      assert SubInv(limits, h, id);
      if id in h.live && HasRoom(limits, h.subs[id]) {
        OfferFollows(limits, h.appended, h.fanned, h.subs[id]);
      }
    }
  }

  lemma SubscribedKeeps(limits: Limits, h: Hub, h': Hub)
    requires Inv(limits, h) && Next(limits, h, Subscribed, h')
    ensures Inv(limits, h')
  {
    assert h.nextId !in h.subs;
    forall id | id in h'.subs ensures SubInv(limits, h', id) {
      if id == h.nextId {
        assert h.appended[..|h.appended|] == h.appended;
        ConcatEmpty(Snapshot(limits, h.appended));
      } else {
        assert SubInv(limits, h, id);
      }
    }
  }

  lemma TakenKeeps(limits: Limits, h: Hub, id: nat, h': Hub)
    requires Inv(limits, h) && Next(limits, h, Taken(id), h')
    ensures Inv(limits, h')
  {
    TakeKeepsDelivered(h.subs[id]);
    forall other | other in h'.subs ensures SubInv(limits, h', other) {
      assert SubInv(limits, h, other);
    }
  }

  /** Removing subscriptions leaves what they were sent. */
  lemma RemovalKeeps(limits: Limits, h: Hub, e: Event, h': Hub)
    requires Inv(limits, h) && Next(limits, h, e, h')
    requires e.Left? || e.Finished?
    ensures Inv(limits, h')
  {
    forall id | id in h'.subs ensures SubInv(limits, h', id) {
      assert SubInv(limits, h, id);
    }
  }

  /** So does closing one that was removed: it gets its first and only reason. */
  lemma CloseKeeps(limits: Limits, h: Hub, e: Event, h': Hub)
    requires Inv(limits, h) && Next(limits, h, e, h')
    requires e.ClosedDropped? || e.ClosedLeft? || e.ClosedEnded?
    ensures Inv(limits, h')
  {
    assert SubInv(limits, h, e.id);
    forall id | id in h'.subs ensures SubInv(limits, h', id) {
      assert SubInv(limits, h, id);
      assert h'.subs[id].Delivered() == h.subs[id].Delivered();
      assert id == e.id && !e.ClosedEnded? ==> h'.subs[id].closes[0] != Eof;
    }
  }

  lemma StepKeeps(limits: Limits, h: Hub, e: Event, h': Hub)
    requires Inv(limits, h) && Next(limits, h, e, h')
    ensures Inv(limits, h')
  {
    match e
    case Appended(data) => AppendedKeeps(limits, h, data, h');
    case FannedOut => FannedOutKeeps(limits, h, h');
    case Subscribed => SubscribedKeeps(limits, h, h');
    case Taken(id) => TakenKeeps(limits, h, id, h');
    case Left(_) => RemovalKeeps(limits, h, e, h');
    case Finished => RemovalKeeps(limits, h, e, h');
    case _ => CloseKeeps(limits, h, e, h');
  }

  // ----- Operations that nothing interrupts -------------------------------------------

  /** Every subscription in ids is closed once more. */
  function ClosedAll(subs: map<nat, Sub>, ids: set<nat>, r: Reason): map<nat, Sub> {
    map id | id in subs :: if id in ids then subs[id].(closes := subs[id].closes + [r]) else subs[id]
  }

  function DroppedClosed(h: Hub): Hub {
    h.(dropping := {}, subs := ClosedAll(h.subs, h.dropping, Overflow))
  }

  function EndedClosed(h: Hub): Hub {
    h.(ending := {}, subs := ClosedAll(h.subs, h.ending, Eof))
  }

  /** publish as a whole: a frame goes into the ring, out to whoever has room, and the others are closed. */
  function Published(limits: Limits, h: Hub, data: bytes): Hub
    requires h.fanned == |h.appended| && h.live <= h.subs.Keys
  {
    if data == [] then h else DroppedClosed(FanOut(limits, h.(appended := h.appended + [data])))
  }

  /** finalize as a whole: nobody is registered any more, and everybody is closed. */
  function Ended(h: Hub): Hub {
    EndedClosed(h.(stopped := true, live := {}, ending := h.live))
  }

  /** Unsubscribe as a whole. */
  function Unsubscribe(h: Hub, id: nat): Hub {
    if id in h.live then h.(live := h.live - {id}, subs := ClosedAll(h.subs, {id}, Unsubscribed)) else h
  }

  ghost predicate IsPath(limits: Limits, hubs: seq<Hub>, events: seq<Event>) {
    && |hubs| == |events| + 1
    && forall i {:trigger events[i]} :: 0 <= i < |events| ==> Next(limits, hubs[i], events[i], hubs[i + 1])
  }

  lemma Prepend(limits: Limits, h: Hub, e: Event, hubs: seq<Hub>, events: seq<Event>)
    requires IsPath(limits, hubs, events) && Next(limits, h, e, hubs[0])
    ensures IsPath(limits, [h] + hubs, [e] + events) && ([h] + hubs)[|events| + 1] == hubs[|events|]
  {
    forall i | 0 <= i < |events| + 1 ensures Next(limits, ([h] + hubs)[i], ([e] + events)[i], ([h] + hubs)[i + 1]) {
      assert i > 0 ==> ([e] + events)[i] == events[i - 1];
    }
  }

  /** Closing all that was dropped is closing one after the other. */
  lemma {:induction false} DroppedAreClosed(limits: Limits, h: Hub) returns (hubs: seq<Hub>, events: seq<Event>)
    requires h.dropping <= h.subs.Keys
    ensures IsPath(limits, hubs, events) && hubs[0] == h && hubs[|events|] == DroppedClosed(h)
    decreases h.dropping
  {
    if h.dropping == {} {
      assert ClosedAll(h.subs, {}, Overflow) == h.subs;
      return [h], [];
    }
    var id :| id in h.dropping;
    var one := h.(dropping := h.dropping - {id}, subs := Close(h, id, Overflow));
    hubs, events := DroppedAreClosed(limits, one);
    assert DroppedClosed(one).subs == DroppedClosed(h).subs;
    Prepend(limits, h, ClosedDropped(id), hubs, events);
    hubs, events := [h] + hubs, [ClosedDropped(id)] + events;
  }

  lemma {:induction false} EndedAreClosed(limits: Limits, h: Hub) returns (hubs: seq<Hub>, events: seq<Event>)
    requires h.ending <= h.subs.Keys
    ensures IsPath(limits, hubs, events) && hubs[0] == h && hubs[|events|] == EndedClosed(h)
    decreases h.ending
  {
    if h.ending == {} {
      assert ClosedAll(h.subs, {}, Eof) == h.subs;
      return [h], [];
    }
    var id :| id in h.ending;
    var one := h.(ending := h.ending - {id}, subs := Close(h, id, Eof));
    hubs, events := EndedAreClosed(limits, one);
    assert EndedClosed(one).subs == EndedClosed(h).subs;
    Prepend(limits, h, ClosedEnded(id), hubs, events);
    hubs, events := [h] + hubs, [ClosedEnded(id)] + events;
  }

  /** Publishing, when nothing comes between, is a path of the interleaving model's steps, and ends idle. */
  lemma PublishIsPath(limits: Limits, h: Hub, data: bytes) returns (hubs: seq<Hub>, events: seq<Event>)
    requires Idle(h) && !h.stopped && h.live <= h.subs.Keys
    ensures IsPath(limits, hubs, events) && hubs[0] == h && hubs[|events|] == Published(limits, h, data)
    ensures Idle(Published(limits, h, data))
  {
    if data == [] {
      return [h], [];
    }
    var added := h.(appended := h.appended + [data]);
    var handed := FanOut(limits, added);
    hubs, events := DroppedAreClosed(limits, handed);
    Prepend(limits, added, FannedOut, hubs, events);
    hubs, events := [added] + hubs, [FannedOut] + events;
    Prepend(limits, h, Appended(data), hubs, events);
    hubs, events := [h] + hubs, [Appended(data)] + events;
  }

  /** So is the end of the log. */
  lemma EndIsPath(limits: Limits, h: Hub) returns (hubs: seq<Hub>, events: seq<Event>)
    requires Idle(h) && !h.stopped && h.live <= h.subs.Keys
    ensures IsPath(limits, hubs, events) && hubs[0] == h && hubs[|events|] == Ended(h)
  {
    var ended := h.(stopped := true, live := {}, ending := h.live);
    hubs, events := EndedAreClosed(limits, ended);
    Prepend(limits, h, Finished, hubs, events);
    hubs, events := [h] + hubs, [Finished] + events;
  }

  /** And a subscriber's leaving; leaving again does nothing. */
  lemma UnsubscribeIsPath(limits: Limits, h: Hub, id: nat)
    requires h.live <= h.subs.Keys && id !in h.leaving
    ensures var left := h.(live := h.live - {id}, leaving := h.leaving + {id});
            if id in h.live then Next(limits, h, Left(id), left) && Next(limits, left, ClosedLeft(id), Unsubscribe(h, id))
            else Next(limits, h, Left(id), h) && Unsubscribe(h, id) == h
  {
    assert h.leaving + {id} - {id} == h.leaving;
    assert id in h.live ==> ClosedAll(h.subs, {id}, Unsubscribed) == Close(h, id, Unsubscribed);
  }

  // ----- Every interleaving -----------------------------------------------------------

  ghost predicate IsRun(limits: Limits, hubs: seq<Hub>, events: seq<Event>) {
    limits.Valid() && IsPath(limits, hubs, events) && hubs[0] == EMPTY
  }

  lemma {:induction false} RunKeeps(limits: Limits, hubs: seq<Hub>, events: seq<Event>, n: nat)
    requires IsRun(limits, hubs, events) && n <= |events|
    ensures Inv(limits, hubs[n])
  {
    if n > 0 {
      RunKeeps(limits, hubs, events, n - 1);
      StepKeeps(limits, hubs[n - 1], events[n - 1], hubs[n]);
    }
  }

  /**
   What a subscription is sent of a log that was all when it joined and of which the frames
   datas follow: in one frame the last ringBytes bytes of all, marked if there are more, or
   nothing if the log was empty; then every frame by itself, unmarked.
   */
  ghost predicate SentRingFirst(limits: Limits, all: bytes, datas: seq<bytes>, sent: seq<Frame>) {
    var start := if |all| > limits.ringBytes then |all| - limits.ringBytes else 0;
    var n := if all == [] then 0 else 1;
    && |sent| == n + |datas|
    && (n == 1 ==> sent[0].data == all[start..] && (sent[0].marker <==> |all| > limits.ringBytes))
    && (forall i {:trigger datas[i]} :: 0 <= i < |datas| ==> sent[n + i].data == datas[i] && !sent[n + i].marker)
    && Data(sent) == all[start..] + Flatten(datas)
  }

  /** The bytes of some frames, one frame after the other. */
  function Data(sent: seq<Frame>): bytes {
    if sent == [] then [] else sent[0].data + Data(sent[1..])
  }

  lemma {:induction false} DataOfFrames(datas: seq<bytes>)
    ensures Data(Frames(datas)) == Flatten(datas)
  {
    if datas != [] {
      assert Frames(datas)[1..] == Frames(datas[1..]);
      DataOfFrames(datas[1..]);
    }
  }

  lemma DataConcat(a: seq<Frame>, b: seq<Frame>)
    requires |a| <= 1
    ensures Data(a + b) == (if a == [] then [] else a[0].data) + Data(b)
  {
    if a == [] {
      ConcatEmpty(b);
      ConcatEmpty(Data(b));
    } else {
      ConcatTail(a, b);
      ConcatEmpty(b);
    }
  }

  lemma SeenIsRingFirst(limits: Limits, appended: seq<bytes>, s: Sub)
    requires limits.Valid() && SeesRun(limits, appended, s)
    ensures SentRingFirst(limits, Flatten(appended[..s.joined]), appended[s.first..s.last], s.taken + s.queue)
  {
    var snap, datas := Snapshot(limits, appended[..s.joined]), appended[s.first..s.last];
    DataOfFrames(datas);
    DataConcat(snap, Frames(datas));
  }

  /**
   Under every interleaving a subscription that joined before the end is sent the ring as
   it was and then consecutive frames, of which only the first can overlap the ring: it is
   the one frame that was appended but not handed out yet. Its queue never overfills, it
   is closed at most once and not while it is registered, and EOF as the reason means it
   missed nothing. One that joined after the end is closed at once.
   */
  lemma NoGapAndOneOverlap(limits: Limits, hubs: seq<Hub>, events: seq<Event>, n: nat, id: nat)
    returns (joined: nat, first: nat, last: nat)
    requires IsRun(limits, hubs, events) && n <= |events| && id in hubs[n].subs
    ensures var h, s := hubs[n], hubs[n].subs[id];
            && (CameLate(h, s) || (
                  && first <= last <= |h.appended| && first <= joined <= first + 1 && joined <= |h.appended|
                  && SentRingFirst(limits, Flatten(h.appended[..joined]), h.appended[first..last], s.taken + s.queue)))
            && |s.closes| <= 1 && |s.queue| <= limits.queueLen
            && (id in h.live ==> s.closes == [] && last == h.fanned)
            && (s.closes == [Eof] ==> last == |h.appended|)
  {
    RunKeeps(limits, hubs, events, n);
    var h, s := hubs[n], hubs[n].subs[id];
    assert SubInv(limits, h, id);
    if SeesRun(limits, h.appended, s) {
      SeenIsRingFirst(limits, h.appended, s);
    }
    return s.joined, s.first, s.last;
  }

  /** The bytes: live frames start at or before the snapshot's end, and less than a frame before it. */
  lemma OverlapIsOneFrame(limits: Limits, appended: seq<bytes>, joined: nat, first: nat)
    requires first <= joined <= first + 1 && joined <= |appended|
    ensures var end, start := Flatten(appended[..joined]), Flatten(appended[..first]);
            start <= end && end == start + if first == joined then [] else appended[first]
  {
    if first < joined {
      assert appended[..joined] == appended[..first] + [appended[first]];
      FlattenSnoc(appended[..first], appended[first]);
    } else {
      ConcatEmpty(Flatten(appended[..first]));
    }
  }

  /** A channel is closed only after it left the subscribers' table: no frame follows a close. */
  lemma NeverSentAfterClose(limits: Limits, hubs: seq<Hub>, events: seq<Event>, n: nat, id: nat)
    requires IsRun(limits, hubs, events) && n < |events| && id in hubs[n].subs
    requires hubs[n].subs[id].closes != []
    ensures id in hubs[n + 1].subs
    ensures hubs[n + 1].subs[id].Delivered() == hubs[n].subs[id].Delivered()
    ensures hubs[n + 1].subs[id].closes == hubs[n].subs[id].closes
  {
    RunKeeps(limits, hubs, events, n);
    assert SubInv(limits, hubs[n], id);
    var e := events[n];
    assert Next(limits, hubs[n], e, hubs[n + 1]);
    if e.Taken? && e.id == id {
      TakeKeepsDelivered(hubs[n].subs[id]);
    }
  }

  /** The subscription's queue was full when a frame was handed out. */
  ghost predicate FellBehind(limits: Limits, hubs: seq<Hub>, events: seq<Event>, n: nat, id: nat)
    requires n < |events| < |hubs|
  {
    events[n] == FannedOut && id in hubs[n].live && id in hubs[n].subs && |hubs[n].subs[id].queue| == limits.queueLen
  }

  /** Its reader left while it was registered. */
  ghost predicate WentAway(hubs: seq<Hub>, events: seq<Event>, n: nat, id: nat)
    requires n < |events| < |hubs|
  {
    events[n] == Left(id) && id in hubs[n].live
  }

  predicate Dropped(h: Hub, id: nat) {
    id in h.dropping || (id in h.subs && h.subs[id].closes == [Overflow])
  }

  predicate Gone(h: Hub, id: nat) {
    id in h.leaving || (id in h.subs && h.subs[id].closes == [Unsubscribed])
  }

  /** What closes a subscription is the step that closes it. */
  lemma ClosedNow(limits: Limits, h: Hub, e: Event, h': Hub, id: nat)
    requires Inv(limits, h) && Next(limits, h, e, h') && id in h'.subs && h'.subs[id].closes != []
    requires id !in h.subs || h'.subs[id].closes != h.subs[id].closes
    ensures match h'.subs[id].closes[0]
            case Overflow => e == ClosedDropped(id)
            case Unsubscribed => e == ClosedLeft(id)
            case Eof => e == ClosedEnded(id) || (e == Subscribed && h.stopped)
  {
    if id in h.subs {
      assert SubInv(limits, h, id);
      assert |h.subs[id].closes| <= 1;
    }
  }

  lemma RemovedNow(limits: Limits, h: Hub, e: Event, h': Hub, id: nat)
    requires Inv(limits, h) && Next(limits, h, e, h')
    ensures Dropped(h', id) && !Dropped(h, id) ==> e == FannedOut && id in h.live && |h.subs[id].queue| == limits.queueLen
    ensures Gone(h', id) && !Gone(h, id) ==> e == Left(id) && id in h.live
  {
    if id in h.subs {
      assert SubInv(limits, h, id);
    }
    if id in h'.subs && h'.subs[id].closes != [] && (id !in h.subs || h'.subs[id].closes != h.subs[id].closes) {
      ClosedNow(limits, h, e, h', id);
    }
  }

  /**
   A subscription is taken out only because its queue was full when a frame came, because
   its reader left, or at the end; and the reason it is closed with says which.
   */
  lemma {:induction false} ClosedForAReason(limits: Limits, hubs: seq<Hub>, events: seq<Event>, n: nat, id: nat)
    requires IsRun(limits, hubs, events) && n <= |events|
    ensures Dropped(hubs[n], id) ==> exists m: nat :: m < n && FellBehind(limits, hubs, events, m, id)
    ensures Gone(hubs[n], id) ==> exists m: nat :: m < n && WentAway(hubs, events, m, id)
    ensures id in hubs[n].ending || (id in hubs[n].subs && hubs[n].subs[id].closes == [Eof]) ==> hubs[n].stopped
  {
    RunKeeps(limits, hubs, events, n);
    assert id in hubs[n].subs ==> SubInv(limits, hubs[n], id);
    if n > 0 {
      RunKeeps(limits, hubs, events, n - 1);
      ClosedForAReason(limits, hubs, events, n - 1, id);
      RemovedNow(limits, hubs[n - 1], events[n - 1], hubs[n], id);
      if Dropped(hubs[n], id) && !Dropped(hubs[n - 1], id) {
        assert FellBehind(limits, hubs, events, n - 1, id);
      }
      if Gone(hubs[n], id) && !Gone(hubs[n - 1], id) {
        assert WentAway(hubs, events, n - 1, id);
      }
    }
  }
}
