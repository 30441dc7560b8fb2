/** What the receiver's scheduling rules guarantee: order and completeness,
    bounded waiting, bulk receives as repeated single ones, and exactly when the
    poll budget wraps. */
module MpscSchedulingTheorems {
  import opened Basics
  import opened MpscLane
  import opened MpscScheduling

  // Readiness collection

  predicate Collectable<T>(c: Chan<T>, k: nat) {
    k < |c.lanes| && k < |c.paused| && c.lanes[k].Some? && !c.paused[k] && c.lanes[k].value.pending
  }

  /** A lane an ordinary receive must look at before it may report nothing. */
  predicate Due<T>(c: Chan<T>, k: nat) {
    k < |c.lanes| && c.lanes[k].Some? && (k in c.active || (k in c.marks && Collectable(c, k)))
  }

  /** The entries in `lo..hi` are gone, and their collectable lanes are queued. */
  ghost predicate Swept<T>(c: Chan<T>, r: Chan<T>, lo: nat, hi: nat) {
    && r.marks == (set k | k in c.marks && !(lo <= k < hi))
    && forall k :: k in c.marks && lo <= k < hi && Collectable(c, k) ==> k in r.active
  }

  lemma CollectSlotValid<T>(c: Chan<T>, k: nat)
    requires c.Valid() && k < |c.lanes|
    ensures c.CollectSlot(k).Valid() && |c.paused| == |c.lanes|
  {
  }

  lemma CollectSlotMark<T>(c: Chan<T>, k: nat)
    requires c.Shape() && k < |c.lanes|
    ensures var d := c.CollectSlot(k);
      && d.marks == c.marks - {k} && d.lanes == c.lanes && d.paused == c.paused
      && (k in c.marks && Collectable(c, k) ==> k in d.active)
  {
  }

  lemma {:induction false} CollectSlotsMarks<T>(c: Chan<T>, lo: nat, hi: nat)
    requires c.Valid() && lo <= hi <= |c.lanes|
    ensures Swept(c, CollectSlots(c, lo, hi), lo, hi)
    decreases hi - lo
  {
    hide Chan.CollectSlot, Chan.Rotation, Chan.Load;
    if lo < hi {
      var d := c.CollectSlot(lo);
      var r := CollectSlots(c, lo, hi);
      CollectSlotMark(c, lo);
      CollectSlotValid(c, lo);
      assert r == CollectSlots(d, lo + 1, hi);
      CollectSlotsMarks(d, lo + 1, hi);
      assert d.active <= r.active;
      assert forall k :: Collectable(d, k) == Collectable(c, k);
    }
  }

  /** Group `g` is among the next `n` of `count` groups in cyclic order. */
  predicate InTurn(g: nat, next: nat, n: nat, count: nat) {
    (next <= g < next + n) || g + count < Min(next, count) + n
  }

  lemma VisitClears<T>(c: Chan<T>, v: nat)
    requires c.Valid() && v < c.Groups()
    ensures !GroupMarked(Visited(c, v), v)
    ensures forall g: nat :: GroupMarked(Visited(c, v), g) ==> GroupMarked(c, g)
  {
    CollectSlotsMarks(c, v * GROUP_LANES, GroupEnd(c, v));
  }

  lemma {:induction false} CollectGroupsClears<T>(c: Chan<T>, next: nat, n: nat, g: nat)
    requires c.Valid() && n <= c.Groups() && g < c.Groups()
    requires !GroupMarked(c, g) || InTurn(g, next, n, c.Groups())
    ensures !GroupMarked(CollectGroups(c, next, n, true), g)
    decreases n
  {
    hide Visited, Chan.Valid, Chan.Load, Chan.Marked;
    if n > 0 {
      var v := if next < c.Groups() then next else 0;
      VisitClears(c, v);
      assert GroupMarked(Visited(c, v), g) ==> GroupMarked(c, g) && g != v;
      CollectGroupsClears(Visited(c, v), v + 1, n - 1, g);
    }
  }

  /** A full collection leaves no ready-page entry of any registered slot. */
  lemma CollectionIsComplete<T>(c: Chan<T>, k: nat)
    requires c.Valid() && k < |c.lanes|
    ensures k !in Collected(c, true).marks
  {
    var g := k / GROUP_LANES;
    CollectGroupsClears(c, c.cursor, c.Groups(), g);
    var r := Collected(c, true);
    assert g * GROUP_LANES <= k < GroupEnd(r, g);
  }

  lemma VisitKeepsDue<T>(c: Chan<T>, v: nat, k: nat)
    requires c.Valid() && v < c.Groups() && Due(c, k)
    ensures Due(Visited(c, v), k)
  {
    CollectSlotsMarks(c, v * GROUP_LANES, GroupEnd(c, v));
    assert c.active <= Visited(c, v).active;
  }

  lemma {:induction false} CollectGroupsKeepsDue<T>(c: Chan<T>, next: nat, n: nat, all: bool, k: nat)
    requires c.Valid() && (n > 0 ==> 0 < c.Groups()) && Due(c, k)
    ensures Due(CollectGroups(c, next, n, all), k)
    decreases n
  {
    hide Due, Visited, GroupMarked, Chan.Valid, Chan.Load;
    if n > 0 {
      var g := if next < c.Groups() then next else 0;
      VisitKeepsDue(c, g, k);
      CollectGroupsKeepsDue(Visited(c, g), g + 1, n - 1, all, k);
    }
  }

  lemma {:induction false} CollectGroupsNothing<T>(c: Chan<T>, next: nat, n: nat, all: bool)
    requires c.Valid() && (n > 0 ==> 0 < c.Groups())
    requires forall k :: k in c.marks ==> |c.lanes| <= k
    ensures CollectGroups(c, next, n, all) == c
    decreases n
  {
    hide Chan.Valid, Chan.Load, CollectSlots;
    if n > 0 {
      var g := if next < c.Groups() then next else 0;
      assert Visited(c, g) == c;
      CollectGroupsNothing(c, g + 1, n - 1, all);
    }
  }

  // Order and completeness

  lemma RefreshedKeepsDue<T>(c: Chan<T>, k: nat)
    requires c.Valid() && Due(c, k)
    ensures Due(Refreshed(c), k)
  {
    if c.active == [] || c.budget == 0 {
      CollectGroupsKeepsDue(c, c.cursor, c.Groups(), c.active == [], k);
    }
  }

  /** Settling moves values into windows but neither loses nor reorders any. */
  lemma {:induction false} PreparedKeepsUnread<T>(c: Chan<T>, k: nat)
    requires c.Valid()
    ensures Prepared(c).Unread(k) == c.Unread(k)
    decreases c.Load()
  {
    var r := Refreshed(c);
    if r.active != [] && r.Front().Refilled().window == [] {
      PreparedKeepsUnread(FrontSettled(r), k);
    }
  }

  lemma {:induction false} PreparedFindsDue<T>(c: Chan<T>, k: nat)
    requires c.Valid() && Due(c, k) && c.Unread(k) != []
    ensures Prepared(c).active != []
    decreases c.Load()
  {
    var r := Refreshed(c);
    RefreshedKeepsDue(c, k);
    if r.active == [] {
      CollectionIsComplete(c, k);
    } else if r.Front().Refilled().window == [] {
      assert r.active[0] != k;
      assert Due(FrontSettled(r), k);
      PreparedFindsDue(FrontSettled(r), k);
    }
  }

  /** A receive finds a value whenever any lane it must look at has one. */
  lemma NothingIsMissed<T>(c: Chan<T>, fair: bool, k: nat)
    requires c.Valid() && Received(c, fair).1.None? && Due(c, k)
    ensures c.Unread(k) == []
  {
    if c.Unread(k) != [] {
      PreparedFindsDue(c, k);
    }
  }

  lemma DeliveredTakesOldest<T>(p: Chan<T>, fair: bool, k: nat)
    requires Deliverable(p)
    ensures p.Unread(k) == (if p.active[0] == k then [p.Front().window[0]] else []) + Delivered(p, fair).Unread(k)
  {
    hide Chan.Shape;
    var l := p.Front();
    assert l.window == [l.window[0]] + l.window[1..];
    assert l.Unread() == [l.window[0]] + l.Taken(fair).Unread();
    if p.active[0] != k {
      assert Delivered(p, fair).Unread(k) == p.Unread(k);
    }
  }

  /** A receive returns the oldest unread value of one lane and leaves every other
      lane's values alone; one that finds nothing changes no lane's values. */
  lemma ReceiveTakesOldest<T>(c: Chan<T>, fair: bool, k: nat)
    requires c.Valid()
    ensures var (d, v) := Received(c, fair);
      c.Unread(k) == (if v.Some? && v.value.0 == k then [v.value.1] else []) + d.Unread(k)
  {
    PreparedKeepsUnread(c, k);
    if Prepared(c).active != [] {
      DeliveredTakesOldest(Prepared(c), fair, k);
    }
  }

  function From<T>(out: seq<(nat, T)>, k: nat): seq<T> {
    if out == [] then []
    else (if out[0].0 == k then [out[0].1] else []) + From(out[1..], k)
  }

  lemma FromFirst<T>(x: (nat, T), out: seq<(nat, T)>, k: nat)
    ensures From([x] + out, k) == (if x.0 == k then [x.1] else []) + From(out, k)
  {
    assert ([x] + out)[1..] == out;
  }

  lemma ReceivedTimesFirst<T>(c: Chan<T>, n: nat)
    requires c.Valid() && n > 0 && Received(c, false).1.Some?
    ensures var (d, v) := Received(c, false);
      ReceivedTimes(c, n) == (ReceivedTimes(d, n - 1).0, [v.value] + ReceivedTimes(d, n - 1).1)
  {
    hide Received;
  }

  // Bounded waiting

  /** Values the lanes in `s` may still deliver before their bursts end. */
  function BurstsLeft<T>(c: Chan<T>, s: seq<nat>): (n: nat)
    requires c.Shape() && forall i :: 0 <= i < |s| ==> s[i] < |c.lanes| && c.lanes[s[i]].Some?
    ensures n <= PREFETCH_LIMIT * |s|
  {
    if s == [] then 0
    else (PREFETCH_LIMIT - c.lanes[s[0]].value.burst) + BurstsLeft(c, s[1..])
  }

  lemma {:induction false} BurstsLeftSame<T>(c: Chan<T>, d: Chan<T>, s: seq<nat>)
    requires c.Shape() && d.Shape() && |c.lanes| == |d.lanes|
    requires forall i :: 0 <= i < |s| ==> s[i] < |c.lanes| && c.lanes[s[i]].Some? && d.lanes[s[i]] == c.lanes[s[i]]
    ensures BurstsLeft(d, s) == BurstsLeft(c, s)
    decreases |s|
  {
    if s != [] {
      BurstsLeftSame(c, d, s[1..]);
    }
  }

  lemma BurstsLeftFirst<T>(c: Chan<T>, p: nat)
    requires c.Valid() && 0 < p <= |c.active|
    ensures BurstsLeft(c, c.active[..p]) == PREFETCH_LIMIT - c.Front().burst + BurstsLeft(c, c.active[1..p])
  {
    assert c.active[..p][1..] == c.active[1..p];
  }

  /** A lane queued at position `p` after a delivery. */
  function PositionAfter<T>(c: Chan<T>, p: nat): nat
    requires Deliverable(c) && 0 < p < |c.active|
  {
    if c.Front().Rotates(false) then p - 1 else p
  }

  /** A delivery either moves a waiting lane up or shrinks the front lane's burst. */
  lemma DeliverWhileWaiting<T>(c: Chan<T>, p: nat)
    requires Deliverable(c) && 0 < p < |c.active|
    ensures var d, q := Delivered(c, false), PositionAfter(c, p);
      && q < |d.active| && d.active[q] == c.active[p]
      && BurstsLeft(d, d.active[..q]) == BurstsLeft(c, c.active[..p]) - 1
  {
    var d := Delivered(c, false);
    BurstsLeftSame(c, d, c.active[1..p]);
    BurstsLeftFirst(c, p);
    if c.Front().Rotates(false) {
      assert d.active[..p - 1] == c.active[1..p];
    } else {
      BurstsLeftFirst(d, p);
    }
  }

  /** Preparing a receive only drops settled lanes in front of a waiting lane. */
  lemma {:induction false} PrepareWhileWaiting<T>(c: Chan<T>, p: nat) returns (q: nat)
    requires c.Valid() && p < |c.active| && c.Unread(c.active[p]) != []
    ensures var d := Prepared(c);
      && q <= p && q < |d.active| && d.active[q] == c.active[p]
      && BurstsLeft(d, d.active[..q]) <= BurstsLeft(c, c.active[..p])
    decreases c.Load()
  {
    var r := Refreshed(c);
    assert c.active <= r.active;
    assert r.active[..p] == c.active[..p];
    BurstsLeftSame(c, r, c.active[..p]);
    if r.Front().Refilled().window != [] {
      q := p;
      RefillWhileWaiting(r, p);
    } else {
      SettleWhileWaiting(r, p);
      q := PrepareWhileWaiting(FrontSettled(r), p - 1);
    }
  }

  lemma RefillWhileWaiting<T>(c: Chan<T>, p: nat)
    requires c.Valid() && p < |c.active|
    ensures BurstsLeft(c.WithFront(c.Front().Refilled()), c.active[..p]) == BurstsLeft(c, c.active[..p])
  {
    var d := c.WithFront(c.Front().Refilled());
    if p > 0 {
      BurstsLeftFirst(c, p);
      BurstsLeftFirst(d, p);
      BurstsLeftSame(c, d, c.active[1..p]);
    }
  }

  lemma SettleWhileWaiting<T>(c: Chan<T>, p: nat)
    requires c.Valid() && p < |c.active| && c.Unread(c.active[p]) != [] && c.Front().Refilled().window == []
    ensures var d := FrontSettled(c);
      && 0 < p && d.active[p - 1] == c.active[p] && d.Unread(c.active[p]) == c.Unread(c.active[p])
      && BurstsLeft(d, d.active[..p - 1]) <= BurstsLeft(c, c.active[..p])
  {
    var d := FrontSettled(c);
    BurstsLeftFirst(c, p);
    BurstsLeftSame(c, d, c.active[1..p]);
    assert d.active[..p - 1] == c.active[1..p];
  }

  /** `n` fair receives in a row, stopping when one finds nothing. */
  function ReceivedFairTimes<T>(c: Chan<T>, n: nat): (r: (Chan<T>, seq<(nat, T)>))
    requires c.Valid()
    ensures r.0.Valid() && |r.1| <= n
    decreases n
  {
    if n == 0 then (c, [])
    else
      var (d, v) := ReceivedFair(c);
      if v.None? then (d, [])
      else var (e, out) := ReceivedFairTimes(d, n - 1); (e, [v.value] + out)
  }

  lemma ReceivedFairTimesFirst<T>(c: Chan<T>, n: nat)
    requires c.Valid() && n > 0 && ReceivedFair(c).1.Some?
    ensures var (d, v) := ReceivedFair(c);
      ReceivedFairTimes(c, n) == (ReceivedFairTimes(d, n - 1).0, [v.value] + ReceivedFairTimes(d, n - 1).1)
  {
    hide ReceivedFair;
  }

  lemma FairDeliveryRotates<T>(c: Chan<T>, p: nat)
    requires Deliverable(c) && 0 < p < |c.active|
    ensures var d := Delivered(c, true); p - 1 < |d.active| && d.active[p - 1] == c.active[p]
  {
  }

  /** One fair receive serves a queued lane that has values or moves it up. */
  lemma FairStep<T>(c: Chan<T>, p: nat) returns (q: nat)
    requires c.Valid() && p < |c.active| && c.Unread(c.active[p]) != []
    ensures var (d, v) := ReceivedFair(c);
      var k := c.active[p];
      && q <= p && v.Some?
      && (q == 0 ==> v.value == (k, c.Unread(k)[0]))
      && (0 < q ==> v.value.0 != k && q - 1 < |d.active| && d.active[q - 1] == k && d.Unread(k) == c.Unread(k))
  {
    hide Prepared, Delivered, BurstsLeft, Collected, Chan.Load;
    var k := c.active[p];
    var f := Collected(c, true).(budget := READY_POLL_INTERVAL);
    assert c.active <= f.active;
    assert f.Unread(k) == c.Unread(k);
    PreparedKeepsUnread(f, k);
    q := PrepareWhileWaiting(f, p);
    ReceiveTakesOldest(f, true, k);
    if 0 < q {
      FairDeliveryRotates(Prepared(f), q);
    }
  }

  /** Fair receives take turns: a lane queued behind `p` others is served after at
      most one value from each of them. */
  lemma {:induction false} FairServedInTurn<T>(c: Chan<T>, p: nat) returns (m: nat)
    requires c.Valid() && p < |c.active| && c.Unread(c.active[p]) != []
    ensures m <= p
    ensures var out := ReceivedFairTimes(c, m + 1).1;
      && |out| == m + 1 && out[m] == (c.active[p], c.Unread(c.active[p])[0])
      && forall i :: 0 <= i < m ==> out[i].0 != c.active[p]
    decreases p
  {
    hide ReceivedFair, ReceivedFairTimes, Chan.Valid, Chan.Unread;
    var q := FairStep(c, p);
    if q == 0 {
      m := 0;
    } else {
      m := FairServedInTurn(ReceivedFair(c).0, q - 1);
      m := m + 1;
    }
    ReceivedFairTimesFirst(c, m + 1);
  }

  // The poll budget

  /** A used-up budget is only seen with lanes in rotation. */
  predicate Polled<T>(c: Chan<T>) { c.budget == 0 ==> c.active != [] }

  lemma {:induction false} PreparedHasBudget<T>(c: Chan<T>)
    requires c.Valid() && Polled(c)
    ensures 0 < Prepared(c).budget
    decreases c.Load()
  {
    var r := Refreshed(c);
    if r.active != [] && r.Front().Refilled().window == [] {
      PreparedHasBudget(FrontSettled(r));
    }
  }

  /** Single receives keep the budget sound. */
  lemma ReceiveKeepsPolled<T>(c: Chan<T>, fair: bool)
    requires c.Valid() && Polled(c)
    ensures Polled(Received(c, fair).0)
  {
    PreparedHasBudget(c);
  }

  /** A receive takes a value on a used-up budget, so that the counter wraps,
      exactly when the rotation is empty, the budget is used up, and the first lane
      a full collection queues has a value. */
  lemma BudgetWrapsExactlyWhen<T>(c: Chan<T>)
    requires c.Valid()
    ensures var p, d := Prepared(c), Collected(c, true);
      (p.active != [] && p.budget == 0) <==>
      (c.budget == 0 && c.active == [] && d.active != [] && d.Unread(d.active[0]) != [])
  {
    if Polled(c) {
      PreparedHasBudget(c);
    } else {
      var d := Collected(c, true);
      if d.active != [] && d.Front().Refilled().window == [] {
        var e := FrontSettled(d);
        if Polled(e) {
          PreparedHasBudget(e);
        } else {
          forall k | k in e.marks ensures |e.lanes| <= k {
            if k < |e.lanes| {
              CollectionIsComplete(c, k);
            }
          }
          CollectGroupsNothing(e, e.cursor, e.Groups(), true);
        }
      }
    }
  }

  /** `d` differs from `c` only in lane `k` and the budget. */
  ghost predicate OnlyLane<T>(c: Chan<T>, d: Chan<T>, k: nat) {
    && d.marks == c.marks && d.paused == c.paused && d.cursor == c.cursor && d.active == c.active
    && |d.lanes| == |c.lanes| && forall j :: 0 <= j < |c.lanes| && j != k ==> d.lanes[j] == c.lanes[j]
  }

  lemma LoneLaneStep<T>(c: Chan<T>, k: nat)
    requires c.Valid() && c.active == [k] && 0 < c.budget && c.Front().window != []
    ensures var (d, v) := Received(c, false);
      && v.Some? && OnlyLane(c, d, k) && d.budget == c.budget - 1 && d.Front().window == c.Front().window[1..]
  {
    hide Prepared;
    ReadyInPlace(c);
    assert [k][1..] + [k] == [k];
  }

  /** Receives from a lone lane that has values enough only spend the budget. */
  lemma {:induction false} LoneLaneSpendsBudget<T>(c: Chan<T>, k: nat, n: nat)
    requires c.Valid() && c.active == [k] && n <= c.budget && n <= |c.Front().window|
    ensures var (d, out) := ReceivedTimes(c, n);
      |out| == n && OnlyLane(c, d, k) && d.budget == c.budget - n
    decreases n
  {
    hide Received;
    if n > 0 {
      LoneLaneStep(c, k);
      ReceivedTimesFirst(c, n);
      LoneLaneSpendsBudget(Received(c, false).0, k, n - 1);
    }
  }

  /** The wrap is reachable: receives that use up the budget on one lane, a pause of
      that lane, and one more receive while another lane has a value. */
  lemma PauseThenReceiveWraps<T>(c: Chan<T>)
    requires c.Valid() && |c.lanes| == 2 && c.active == [0] && c.marks == {1} && c.cursor == 0
    requires c.budget <= |c.Front().window| && Collectable(c, 1) && c.Unread(1) != []
    ensures var d := ReceivedTimes(c, c.budget).0;
      && |ReceivedTimes(c, c.budget).1| == c.budget
      && |d.lanes| == 2 && d.lanes[0].Some? && Paused(d, 0).Valid()
      && Received(Paused(d, 0), false).0.budget == USIZE_MAX
  {
    hide Received, ReceivedTimes, Paused;
    LoneLaneSpendsBudget(c, 0, c.budget);
    var d := ReceivedTimes(c, c.budget).0;
    assert 0 in d.active && d.lanes[d.active[0]].Some?;
    PausedAlone(d);
    WrapsOnOneMark(Paused(d, 0));
  }

  lemma PausedAlone<T>(d: Chan<T>)
    requires d.Valid() && |d.lanes| == 2 && d.active == [0] && d.lanes[0].Some?
    ensures var p := Paused(d, 0);
      && p.Valid() && p.active == [] && |p.lanes| == 2 && p.lanes[1] == d.lanes[1] && p.paused[1] == d.paused[1]
      && p.budget == d.budget && p.marks == d.marks && p.cursor == d.cursor
  {
    assert Without(d.active, 0) == [] + Without([], 0);
  }

  lemma PauseThenReceiveExample(values: seq<int>)
    requires |values| == READY_POLL_INTERVAL
    ensures var busy := LaneView(values, [], 0, 0, 64, true, false);
      var late := LaneView([], [7], 0, 0, 64, true, false);
      var c := Chan([Some(busy), Some(late)], [false, false], {1}, [0], READY_POLL_INTERVAL, 0);
      c.Valid() && c.budget <= |c.Front().window| && Collectable(c, 1) && c.Unread(1) == [7]
  {
  }

  lemma WrapsOnOneMark<T>(p: Chan<T>)
    requires p.Valid() && |p.lanes| == 2 && p.active == [] && p.budget == 0 && p.marks == {1} && p.cursor == 0
    requires Collectable(p, 1) && p.Unread(1) != []
    ensures Received(p, false).0.budget == USIZE_MAX
  {
    var d := Collected(p, true);
    assert p.Groups() == 1 && GroupEnd(p, 0) == 2;
    assert GroupMarked(p, 0);
    var q := CollectSlots(p, 0, 2);
    assert q == p.CollectSlot(0).CollectSlot(1);
    assert d.active == [1];
    BudgetWrapsExactlyWhen(p);
  }

  // Bulk receives

  function AdmitAll<T>(a: (), value: T): ((), bool) { (a, true) }

  lemma ReadyIsPrepared<T>(c: Chan<T>)
    requires c.Valid() && Polled(c)
    ensures Ready(c) == Prepared(c)
  {
    PreparedHasBudget(c);
  }

  /** A bulk receive that admits everything is that many single receives: the same
      values in the same order, and the same state afterwards. */
  lemma {:induction false} DrainIsReceives<T>(c: Chan<T>, limit: nat)
    requires c.Valid() && Polled(c)
    ensures var (d, out) := ReceivedTimes(c, limit);
      Drained(c, limit, AdmitAll, ()) == Drain(d, (), out, false)
    decreases limit
  {
    hide Ready, Prepared, Delivered, Chan.Valid;
    if limit > 0 {
      ReadyIsPrepared(c);
      ReceiveKeepsPolled(c, false);
      var (d, v) := Received(c, false);
      if v.Some? {
        DrainIsReceives(d, limit - 1);
      }
    }
  }

  lemma ReadyInPlace<T>(c: Chan<T>)
    requires Deliverable(c) && 0 < c.budget
    ensures Prepared(c) == c && Ready(c) == c
  {
    assert c.lanes[c.active[0] := Some(c.Front())] == c.lanes;
  }

  /** The front lane after a bulk move of `n` values. */
  function AfterChunk<T>(c: Chan<T>, n: nat): Chan<T>
    requires c.Valid() && c.active != [] && n <= |c.Front().window| && n <= c.budget
  {
    var k := c.active[0];
    c.(lanes := c.lanes[k := Some(c.Front().TakenTimes(n))],
       active := if c.Front().burst + n == PREFETCH_LIMIT then c.active[1..] + [k] else c.active,
       budget := c.budget - n)
  }

  function Labeled<T>(k: nat, s: seq<T>): seq<(nat, T)> {
    if s == [] then [] else [(k, s[0])] + Labeled(k, s[1..])
  }

  /** The first `take` values of the front lane can move in bulk. */
  predicate Chunkable<T>(c: Chan<T>, take: nat) {
    && Deliverable(c) && 0 < take <= c.budget && take <= |c.Front().window|
    && c.Front().unreleased + take <= c.Front().batch && c.Front().burst + take <= PREFETCH_LIMIT
  }

  lemma ChunkableIsDeliverable<T>(c: Chan<T>, take: nat)
    requires Chunkable(c, take)
    ensures c.Valid() && c.active != [] && c.Rotation() && c.Front().window != []
  {
  }

  lemma DrainedFirst<A, T>(c: Chan<T>, limit: nat, admit: (A, T) -> (A, bool), a: A)
    requires Deliverable(c) && 0 < c.budget && 0 < limit
    ensures var (next, ok) := admit(a, c.Front().window[0]);
      if !ok then Drained(c, limit, admit, a) == Drain(c, next, [], true)
      else
        var rest := Drained(Delivered(c, false), limit - 1, admit, next);
        Drained(c, limit, admit, a) == rest.(out := [(c.active[0], c.Front().window[0])] + rest.out)
  {
    ReadyInPlace(c);
    hide Ready, Delivered;
  }

  lemma AfterNoChunk<T>(c: Chan<T>)
    requires c.Valid() && c.active != []
    ensures AfterChunk(c, 0) == c
  {
    assert c.lanes[c.active[0] := Some(c.Front())] == c.lanes;
  }

  lemma DeliveredChunkable<T>(c: Chan<T>, take: nat)
    requires Chunkable(c, take) && 1 < take
    ensures var d := Delivered(c, false);
      Chunkable(d, take - 1) && d.active == c.active && d.Front().window == c.Front().window[1..]
  {
  }

  lemma AcceptedFirst<A, T>(s: seq<T>, take: nat, admit: (A, T) -> (A, bool), a: A)
    requires 0 < take <= |s|
    ensures var (next, ok) := admit(a, s[0]);
      Accepted(s[..take], admit, a) == if !ok then (0, next)
                                       else var (n, last) := Accepted(s[1..][..take - 1], admit, next); (n + 1, last)
  {
    assert s[..take][1..] == s[1..][..take - 1];
  }

  lemma LabeledFirst<T>(k: nat, s: seq<T>, m: nat)
    requires 0 < m <= |s|
    ensures Labeled(k, s[..m]) == [(k, s[0])] + Labeled(k, s[1..][..m - 1])
  {
    assert s[..m][1..] == s[1..][..m - 1];
  }

  /** A bulk move that stays within the window, the budget, the release batch and
      the burst makes the same admissions, in the same order, as single receives,
      and leaves the same state. */
  lemma {:induction false} ChunkIsReceives<A, T>(c: Chan<T>, take: nat, limit: nat, admit: (A, T) -> (A, bool), a: A)
    requires Chunkable(c, take) && take <= limit
    ensures var (m, last) := Accepted(c.Front().window[..take], admit, a);
      var out := Labeled(c.active[0], c.Front().window[..m]);
      && AfterChunk(c, m).Valid()
      && (m < take ==> Drained(c, limit, admit, a) == Drain(AfterChunk(c, m), last, out, true))
      && (m == take ==>
            var rest := Drained(AfterChunk(c, m), limit - m, admit, last);
            Drained(c, limit, admit, a) == rest.(out := out + rest.out))
    decreases take
  {
    hide Delivered, AfterChunk, Accepted, Drained, Labeled, Chan.Valid, Deliverable;
    ChunkableIsDeliverable(c, take);
    var k, w := c.active[0], c.Front().window;
    var (next, ok) := admit(a, w[0]);
    DrainedFirst(c, limit, admit, a);
    AcceptedFirst(w, take, admit, a);
    if !ok {
      AfterNoChunk(c);
      LabeledNone(k, w);
    } else {
      var (m, last) := Accepted(w[..take], admit, a);
      LabeledFirst(k, w, m);
      if take == 1 {
        AcceptedNone(w[1..], admit, next);
        LabeledNone(k, w[1..]);
        ChunkOfOne(c);
      } else {
        DeliveredChunkable(c, take);
        ChunkIsReceives(Delivered(c, false), take - 1, limit - 1, admit, next);
        ChunkStep(c, m);
      }
    }
  }

  lemma LabeledNone<T>(k: nat, s: seq<T>)
    ensures Labeled(k, s[..0]) == []
  {
  }

  lemma AcceptedNone<A, T>(s: seq<T>, admit: (A, T) -> (A, bool), a: A)
    ensures Accepted(s[..0], admit, a) == (0, a)
  {
  }

  lemma ChunkOfOne<T>(c: Chan<T>)
    requires Deliverable(c) && 0 < c.budget
    ensures AfterChunk(c, 1) == Delivered(c, false)
  {
    var l := c.Front();
    assert l.TakenTimes(1) == l.Taken(false).TakenTimes(0);
  }

  lemma ChunkStep<T>(c: Chan<T>, m: nat)
    requires Deliverable(c) && 0 < m <= |c.Front().window| && m <= c.budget && c.Front().burst + 1 < PREFETCH_LIMIT
    ensures AfterChunk(Delivered(c, false), m - 1) == AfterChunk(c, m)
  {
    var k, d := c.active[0], Delivered(c, false);
    var l := d.Front().TakenTimes(m - 1);
    assert c.lanes[k := Some(d.Front())][k := Some(l)] == c.lanes[k := Some(l)];
  }
}
