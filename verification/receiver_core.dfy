/** The receiver's whole state as a value, with the invariant its operations keep
    and the scheduling state it stands for. */
module MpscReceiverCore {
  import opened Basics
  import opened MpscLane
  import opened MpscScheduling
  import opened MpscSchedulingTheorems
  import opened MpscMixed

  /** A lane: its counters with the fast window refunded, the values still in that
      window, and the rotation flag. */
  datatype LaneState<T> = LaneState(view: LaneView<T>, fastLeft: nat, queued: bool)

  function ViewsOf<T>(s: seq<Option<LaneState<T>>>): (r: seq<Option<LaneView<T>>>)
    ensures |r| == |s|
    ensures forall k :: 0 <= k < |s| ==> r[k] == if s[k].None? then None else Some(s[k].value.view)
  {
    if s == [] then []
    else
      var last := s[|s| - 1];
      ViewsOf(s[..|s| - 1]) + [if last.None? then None else Some(last.value.view)]
  }

  datatype Core<T> = Core(
    lanes: seq<Option<LaneState<T>>>,
    paused: seq<bool>,
    marks: set<nat>,
    active: seq<nat>,
    budget: nat,
    cursor: nat,
    fastSlot: nat)
  {
    function View(): Chan<T> { Chan(ViewsOf(lanes), paused, marks, active, budget, cursor) }

    /** Each lane's flag mirrors its place in the rotation. */
    predicate Queued() {
      forall k :: 0 <= k < |lanes| && lanes[k].Some? ==> (lanes[k].value.queued <==> k in active)
    }

    /** Only the front lane holds a fast window, and it fits the poll budget. */
    predicate Window() {
      forall k :: 0 <= k < |lanes| && lanes[k].Some? && 0 < lanes[k].value.fastLeft ==>
        active != [] && active[0] == k == fastSlot && lanes[k].value.fastLeft <= budget && lanes[k].value.fastLeft < PREFETCH_LIMIT
    }

    predicate Inv() { View().Valid() && Queued() && Window() }

    function Put(k: nat, l: Option<LaneState<T>>): Core<T>
      requires k < |lanes|
    {
      this.(lanes := lanes[k := l])
    }

    function CollectSlot(k: nat): Core<T>
      requires k < |lanes| && k < |paused|
    {
      if k !in marks then this
      else if lanes[k].Some? && !paused[k] && lanes[k].value.view.pending && !lanes[k].value.queued then
        this.(lanes := lanes[k := Some(lanes[k].value.(queued := true))], marks := marks - {k}, active := active + [k])
      else this.(marks := marks - {k})
    }

    function QueueSlot(k: nat): Core<T>
      requires k < |lanes| && k < |paused|
    {
      if lanes[k].Some? && !paused[k] && !lanes[k].value.queued then
        this.(lanes := lanes[k := Some(lanes[k].value.(queued := true))], active := active + [k])
      else this
    }

    function Front(): LaneState<T>
      requires View().Rotation() && active != []
    {
      lanes[active[0]].value
    }

    predicate Fronted() { View().Rotation() && active != [] }

    /** The front lane reloaded, its fast window closed. */
    function AfterRefill(): Core<T>
      requires Fronted()
    {
      Put(active[0], Some(LaneState(Front().view.Refilled(), 0, true)))
    }

    /** The front lane settled empty. */
    function AfterSettle(): Core<T>
      requires Fronted()
    {
      var l := Front().view.Refilled().Settled();
      this.(lanes := lanes[active[0] := if l.dropped then None else Some(LaneState(l, 0, false))],
            active := active[1..])
    }

    /** The front lane gave one value with full bookkeeping. */
    function AfterTake(fair: bool): Core<T>
      requires Fronted() && Front().view.Refilled().window != []
    {
      var k, l := active[0], Front().view.Refilled();
      this.(lanes := lanes[k := Some(LaneState(l.Taken(fair), 0, true))],
            active := if l.Rotates(fair) then active[1..] + [k] else active,
            budget := Spent(budget))
    }

    /** The front lane gave one value through a fast window with `left` more. */
    function AfterFast(fair: bool, left: nat): Core<T>
      requires Fronted() && Front().view.Refilled().window != []
    {
      var k, l := active[0], Front().view.Refilled();
      this.(lanes := lanes[k := Some(LaneState(l.Taken(fair), left, true))],
            budget := Spent(budget), fastSlot := k)
    }

    /** The front lane gave `n` values in one move. */
    function AfterMove(n: nat): Core<T>
      requires Fronted() && n <= |Front().view.window| && n <= budget
    {
      var k, l := active[0], Front().view;
      this.(lanes := lanes[k := Some(LaneState(l.TakenTimes(n), 0, true))],
            active := if l.burst + n == PREFETCH_LIMIT then active[1..] + [k] else active,
            budget := budget - n)
    }
  }

  lemma ViewOfPut<T>(c: Core<T>, k: nat, l: Option<LaneState<T>>)
    requires k < |c.lanes|
    ensures c.Put(k, l).View() == c.View().(lanes := c.View().lanes[k := if l.None? then None else Some(l.value.view)])
  {
  }

  /** A write that keeps the view keeps the rest of the view's state too. */
  lemma ViewOfSame<T>(c: Core<T>, k: nat, l: LaneState<T>)
    requires k < |c.lanes| && c.lanes[k].Some? && l.view == c.lanes[k].value.view
    ensures c.Put(k, Some(l)).View() == c.View()
  {
    assert ViewsOf(c.lanes[k := Some(l)]) == ViewsOf(c.lanes);
  }

  lemma CollectSlotView<T>(c: Core<T>, k: nat)
    requires c.Inv() && k < |c.lanes|
    ensures k < |c.paused| && c.CollectSlot(k).View() == c.View().CollectSlot(k)
  {
    if c.lanes[k].Some? {
      ViewOfSame(c, k, c.lanes[k].value.(queued := true));
    }
  }

  lemma CollectSlotInv<T>(c: Core<T>, k: nat)
    requires c.Inv() && k < |c.lanes|
    ensures k < |c.paused| && c.CollectSlot(k).Inv()
  {
    CollectSlotView(c, k);
    CollectSlotValid(c.View(), k);
    hide Chan.Valid;
  }

  lemma QueueSlotView<T>(c: Core<T>, k: nat)
    requires c.Inv() && k < |c.lanes|
    ensures k < |c.paused| && c.QueueSlot(k).View() == c.View().QueueSlot(k)
  {
    if c.lanes[k].Some? {
      ViewOfSame(c, k, c.lanes[k].value.(queued := true));
    }
  }

  lemma QueueSlotInv<T>(c: Core<T>, k: nat)
    requires c.Inv() && k < |c.lanes|
    ensures k < |c.paused| && c.QueueSlot(k).Inv()
  {
    QueueSlotView(c, k);
    if HasLane(c.View(), k) && !c.paused[k] && k !in c.active {
      QueuedValid(c.View(), k);
    }
    hide Chan.Valid;
  }

  lemma FrontOfView<T>(c: Core<T>)
    requires c.Inv() && c.active != []
    ensures c.View().Valid() && c.Fronted() && c.active[0] < |c.lanes| && c.lanes[c.active[0]].Some?
    ensures c.active[0] < |c.paused| && !c.paused[c.active[0]]
    ensures c.View().Front() == c.Front().view && c.Front().view.Valid() && c.Front().queued
    ensures forall k :: 0 <= k < |c.lanes| && c.lanes[k].Some? && k != c.active[0] ==> c.lanes[k].value.fastLeft == 0
  {
  }

  lemma FrontReplaced<T>(c: Core<T>, l: LaneView<T>)
    requires c.Inv() && c.active != [] && l.Valid()
    ensures var d := c.Put(c.active[0], Some(LaneState(l, 0, true)));
      d.Inv() && d.View() == c.View().WithFront(l)
  {
    FrontOfView(c);
    ViewOfPut(c, c.active[0], Some(LaneState(l, 0, true)));
  }

  lemma AfterRefillView<T>(c: Core<T>)
    requires c.Inv() && c.active != []
    ensures c.AfterRefill().Inv()
    ensures c.AfterRefill().View() == c.View().WithFront(c.View().Front().Refilled())
  {
    FrontOfView(c);
    FrontReplaced(c, c.Front().view.Refilled());
    hide Core.Inv, Core.View;
  }

  lemma AfterSettleView<T>(c: Core<T>)
    requires c.Inv() && c.active != []
    ensures c.AfterSettle().View() == FrontSettled(c.View())
  {
    FrontOfView(c);
    var l := c.Front().view.Refilled().Settled();
    ViewOfPut(c, c.active[0], if l.dropped then None else Some(LaneState(l, 0, false)));
  }

  lemma AfterSettleInv<T>(c: Core<T>)
    requires c.Inv() && c.active != []
    ensures c.AfterSettle().Inv()
  {
    AfterSettleView(c);
    FrontOfView(c);
    assert c.active == [c.active[0]] + c.active[1..];
  }

  lemma AfterTakeView<T>(c: Core<T>, fair: bool)
    requires c.Inv() && c.active != [] && c.Front().view.Refilled().window != []
    ensures c.AfterTake(fair).View() == Delivered(c.View().WithFront(c.View().Front().Refilled()), fair)
  {
    FrontOfView(c);
    var k, l := c.active[0], c.Front().view.Refilled();
    ViewOfPut(c, k, Some(LaneState(l.Taken(fair), 0, true)));
    var v := c.View();
    assert v.lanes[k := Some(l)][k := Some(l.Taken(fair))] == v.lanes[k := Some(l.Taken(fair))];
  }

  lemma RotatedMembers(s: seq<nat>)
    requires s != []
    ensures forall k :: k in s[1..] + [s[0]] <==> k in s
  {
    assert s == [s[0]] + s[1..];
  }

  lemma AfterTakeInv<T>(c: Core<T>, fair: bool)
    requires c.Inv() && c.active != [] && c.Front().view.Refilled().window != []
    ensures c.AfterTake(fair).Inv()
  {
    hide Delivered, LaneView.Taken, LaneView.Refilled, Chan.Valid;
    AfterTakeView(c, fair);
    FrontOfView(c);
    RotatedMembers(c.active);
  }

  lemma AfterFastView<T>(c: Core<T>, fair: bool, left: nat)
    requires c.Inv() && c.active != [] && c.Front().view.Refilled().window != []
    requires !c.Front().view.Rotates(fair) || |c.active| == 1
    requires left < c.budget && left < PREFETCH_LIMIT
    ensures c.AfterFast(fair, left).Inv()
    ensures c.AfterFast(fair, left).View() == Delivered(c.View().WithFront(c.View().Front().Refilled()), fair)
  {
    FrontOfView(c);
    var k, l := c.active[0], c.Front().view.Refilled();
    ViewOfPut(c, k, Some(LaneState(l.Taken(fair), left, true)));
    var v := c.View();
    assert v.lanes[k := Some(l)][k := Some(l.Taken(fair))] == v.lanes[k := Some(l.Taken(fair))];
    assert |c.active| == 1 ==> c.active[1..] + [k] == c.active;
  }

  lemma AfterMoveView<T>(c: Core<T>, n: nat)
    requires c.Inv() && c.active != [] && n <= |c.Front().view.window| && n <= c.budget
    ensures n <= |c.View().Front().window| && c.AfterMove(n).View() == AfterChunk(c.View(), n)
  {
    FrontOfView(c);
    ViewOfPut(c, c.active[0], Some(LaneState(c.Front().view.TakenTimes(n), 0, true)));
  }

  lemma AfterMoveInv<T>(c: Core<T>, n: nat)
    requires c.Inv() && c.active != [] && n <= |c.Front().view.window| && n <= c.budget
    requires AfterChunk(c.View(), n).Valid()
    ensures c.AfterMove(n).Inv()
  {
    hide AfterChunk, LaneView.TakenTimes, Chan.Valid;
    AfterMoveView(c, n);
    FrontOfView(c);
    RotatedMembers(c.active);
  }

  lemma CursorMoved<T>(c: Core<T>, next: nat)
    requires c.Inv()
    ensures c.(cursor := next).Inv() && c.(cursor := next).View() == c.View().(cursor := next)
  {
  }

  lemma BudgetRaised<T>(c: Core<T>, b: nat)
    requires c.Inv() && (c.budget <= b || PREFETCH_LIMIT <= b)
    ensures c.(budget := b).Inv() && c.(budget := b).View() == c.View().(budget := b)
  {
  }

  // Each receive step against the reference for one receive

  lemma PreparedInPlace<T>(v: Chan<T>)
    requires v.Valid() && Refreshed(v).active != [] && Refreshed(v).Front().Refilled().window != []
    ensures Prepared(v) == Refreshed(v).WithFront(Refreshed(v).Front().Refilled())
  {
  }

  lemma RefreshedInPlace<T>(v: Chan<T>)
    requires v.Valid() && v.active != [] && 0 < v.budget
    ensures Refreshed(v) == v
  {
  }

  lemma ReceiveRefreshed<T>(v: Chan<T>, fair: bool)
    requires v.Valid() && v.active != []
    ensures Received(Refreshed(v), fair) == Received(v, fair)
  {
    RefreshedInPlace(Refreshed(v));
    hide Delivered;
  }

  /** A value popped from the open fast window is the one a receive would return. */
  lemma ReceiveFast<T>(c: Core<T>, k: nat)
    requires c.Inv() && k < |c.lanes| && c.lanes[k].Some?
    requires 0 < c.lanes[k].value.fastLeft <= |c.lanes[k].value.view.window|
    requires !c.lanes[k].value.view.Rotates(false)
    ensures c.active != [] && k == c.active[0] == c.fastSlot && 0 < c.budget
    ensures var l := c.lanes[k].value;
      var d := c.(lanes := c.lanes[k := Some(LaneState(l.view.Taken(false), l.fastLeft - 1, l.queued))],
                  budget := c.budget - 1);
      d.Inv() && Received(c.View(), false) == (d.View(), Some((k, l.view.window[0])))
  {
    FrontOfView(c);
    AfterFastView(c, false, c.lanes[k].value.fastLeft - 1);
    RefreshedInPlace(c.View());
    PreparedInPlace(c.View());
    hide Core.Inv, Core.View, Prepared, Delivered;
  }

  /** The first value of a new fast window is the one a receive would return. */
  lemma ReceiveGranted<T>(c: Core<T>, left: nat)
    requires c.Inv() && c.active != [] && c.Front().view.Refilled().window != []
    requires !c.Front().view.Rotates(false) && left < c.budget && left < PREFETCH_LIMIT
    ensures c.AfterFast(false, left).Inv()
    ensures Received(c.View(), false) ==
            (c.AfterFast(false, left).View(), Some((c.active[0], c.Front().view.Refilled().window[0])))
  {
    FrontOfView(c);
    AfterFastView(c, false, left);
    RefreshedInPlace(c.View());
    PreparedInPlace(c.View());
    hide Core.Inv, Core.View, Prepared, Delivered;
  }

  /** Reloading the front lane changes no later receive. */
  lemma ReceiveReloaded<T>(c: Core<T>, fair: bool)
    requires c.Inv() && c.active != [] && 0 < c.budget
    ensures c.AfterRefill().Inv() && Received(c.AfterRefill().View(), fair) == Received(c.View(), fair)
  {
    AfterRefillView(c);
    FrontOfView(c);
    ReloadedSame(c.View());
    hide Core.Inv, Core.View, Prepared, Delivered;
  }

  lemma ReloadedFront<T>(v: Chan<T>)
    requires v.Valid() && v.active != []
    ensures var l := v.Front().Refilled();
      var w := v.WithFront(l);
      w.Valid() && w.Front() == l && l.Refilled() == l && w.WithFront(l) == w && l.Valid()
  {
    var l := v.Front().Refilled();
    var w := v.WithFront(l);
    assert w.lanes[w.active[0] := Some(l)] == w.lanes;
  }

  lemma PreparedSettles<T>(v: Chan<T>)
    requires v.Valid() && Refreshed(v).active != [] && Refreshed(v).Front().Refilled().window == []
    ensures Prepared(v) == Prepared(FrontSettled(Refreshed(v)))
  {
  }

  lemma ReloadedSame<T>(v: Chan<T>)
    requires v.Valid() && v.active != [] && 0 < v.budget
    ensures var w := v.WithFront(v.Front().Refilled()); w.Valid() && Prepared(w) == Prepared(v)
  {
    hide Prepared, FrontSettled, Refreshed;
    var l := v.Front().Refilled();
    var w := v.WithFront(l);
    ReloadedFront(v);
    RefreshedInPlace(v);
    RefreshedInPlace(w);
    if l.window == [] {
      SettlesSame(v, l);
      PreparedSettles(v);
      PreparedSettles(w);
    } else {
      PreparedInPlace(v);
      PreparedInPlace(w);
    }
  }

  lemma ReceiveTake<T>(v: Chan<T>, c: Core<T>, fair: bool)
    requires v.Valid() && c.Inv() && c.View() == Refreshed(v)
    requires c.active != [] && c.Front().view.Refilled().window != []
    ensures c.AfterTake(fair).Inv()
    ensures Received(v, fair) == (c.AfterTake(fair).View(), Some((c.active[0], c.Front().view.Refilled().window[0])))
  {
    FrontOfView(c);
    AfterTakeView(c, fair);
    AfterTakeInv(c, fair);
    PreparedInPlace(v);
    hide Core.Inv, Core.View, Prepared, Delivered;
  }

  lemma ReceiveSettle<T>(v: Chan<T>, c: Core<T>, fair: bool)
    requires v.Valid() && c.Inv() && c.View() == Refreshed(v)
    requires c.active != [] && c.Front().view.Refilled().window == []
    ensures c.AfterSettle().Inv() && c.AfterSettle().View().Load() < v.Load()
    ensures Received(c.AfterSettle().View(), fair) == Received(v, fair)
  {
    FrontOfView(c);
    AfterSettleView(c);
    AfterSettleInv(c);
    assert Prepared(v) == Prepared(FrontSettled(Refreshed(v)));
    hide Core.Inv, Core.View, Prepared, Delivered;
  }

  // Fair receives

  /** Ending the front lane's burst changes no fair receive. */
  lemma FairIgnoresBurst<T>(v: Chan<T>)
    requires v.Valid() && v.active != [] && 0 < v.budget
    ensures var w := v.WithFront(v.Front().Refilled().(burst := 0));
      w.Valid() && Received(w, true) == Received(v, true)
  {
    var l := v.Front().Refilled();
    var w := v.WithFront(l.(burst := 0));
    RefreshedInPlace(v);
    RefreshedInPlace(w);
    assert w.Front() == l.(burst := 0) && w.Front().Refilled() == w.Front();
    if l.window == [] {
      SettlesSame(v, l.(burst := 0));
    } else {
      PreparedInPlace(v);
      PreparedInPlace(w);
      assert w.WithFront(w.Front()) == w by { assert w.lanes[w.active[0] := Some(w.Front())] == w.lanes; }
      FairDeliversSame(v, l);
    }
    hide Delivered, FrontSettled;
  }

  lemma SettlesSame<T>(v: Chan<T>, l: LaneView<T>)
    requires v.Valid() && v.active != [] && l.Valid() && l.window == [] && l.beyond == []
    requires l.Settled() == v.Front().Refilled().Settled()
    ensures FrontSettled(v.WithFront(l)) == FrontSettled(v)
  {
    var k, s := v.active[0], l.Settled();
    var e := if s.dropped then None else Some(s);
    assert v.lanes[k := Some(l)][k := e] == v.lanes[k := e];
  }

  lemma FairDeliversSame<T>(v: Chan<T>, l: LaneView<T>)
    requires v.Rotation() && v.active != [] && l.window != []
    requires Deliverable(v.WithFront(l.(burst := 0))) && Deliverable(v.WithFront(l))
    ensures Delivered(v.WithFront(l.(burst := 0)), true) == Delivered(v.WithFront(l), true)
  {
    var k, e := v.active[0], Some(l.Taken(true));
    assert l.(burst := 0).Taken(true) == l.Taken(true);
    assert v.lanes[k := Some(l.(burst := 0))][k := e] == v.lanes[k := Some(l)][k := e];
  }

  /** The only lane gave a value to a fair receive through its fast window. */
  lemma ReceiveFairFast<T>(c: Core<T>, left: nat)
    requires c.Inv() && |c.active| == 1 && c.Front().view.Refilled().window != []
    requires left < c.budget && left < PREFETCH_LIMIT
    ensures c.AfterFast(true, left).Inv()
    ensures Received(c.View(), true) ==
            (c.AfterFast(true, left).View(), Some((c.active[0], c.Front().view.Refilled().window[0])))
  {
    FrontOfView(c);
    AfterFastView(c, true, left);
    RefreshedInPlace(c.View());
    PreparedInPlace(c.View());
    hide Core.Inv, Core.View, Prepared, Delivered;
  }

  /** The only lane declined and was reloaded. */
  lemma ReceiveFairDeclined<T>(c: Core<T>)
    requires c.Inv() && c.active != [] && 0 < c.budget
    ensures var d := c.Put(c.active[0], Some(LaneState(c.Front().view.Refilled().(burst := 0), 0, true)));
      d.Inv() && Received(d.View(), true) == Received(c.View(), true)
  {
    FrontOfView(c);
    FrontReplaced(c, c.Front().view.Refilled().(burst := 0));
    FairIgnoresBurst(c.View());
    hide Core.Inv, Core.View, Received;
  }

  // Bulk receives

  lemma DrainedFrom<A, T>(v: Chan<T>, w: Chan<T>, n: nat, admit: (A, T) -> (A, bool), a: A)
    requires v.Valid() && w.Valid() && 0 < n && Ready(v) == Ready(w)
    ensures Drained(v, n, admit, a) == Drained(w, n, admit, a)
  {
    hide Ready, Delivered;
  }

  lemma DrainSettle<A, T>(v: Chan<T>, c: Core<T>, n: nat, admit: (A, T) -> (A, bool), a: A)
    requires v.Valid() && c.Inv() && c.View() == Refreshed(v) && 0 < n
    requires c.active != [] && c.Front().view.Refilled().window == []
    ensures c.AfterSettle().Inv() && c.AfterSettle().View().Load() < v.Load()
    ensures Drained(c.AfterSettle().View(), n, admit, a) == Drained(v, n, admit, a)
  {
    FrontOfView(c);
    AfterSettleView(c);
    AfterSettleInv(c);
    assert Prepared(v) == Prepared(FrontSettled(Refreshed(v)));
    DrainedFrom(v, c.AfterSettle().View(), n, admit, a);
    hide Core.Inv, Core.View, Prepared, Delivered;
  }

  lemma ReadyReloaded<T>(v: Chan<T>)
    requires v.Valid() && Refreshed(v).active != [] && Refreshed(v).Front().Refilled().window != []
    ensures Ready(v) == Ready(Refreshed(v).WithFront(Refreshed(v).Front().Refilled()))
  {
    PreparedInPlace(v);
    var w := Prepared(v);
    if 0 < w.budget {
      ReadyInPlace(w);
    } else {
      PreparedHasBudget(w);
    }
  }

  /** Reloading the front lane changes no later bulk receive. */
  lemma DrainReloaded<A, T>(v: Chan<T>, c: Core<T>, n: nat, admit: (A, T) -> (A, bool), a: A)
    requires v.Valid() && c.Inv() && c.View() == Refreshed(v) && 0 < n
    requires c.active != [] && c.Front().view.Refilled().window != []
    ensures c.AfterRefill().Inv() && Deliverable(c.AfterRefill().View())
    ensures Drained(c.AfterRefill().View(), n, admit, a) == Drained(v, n, admit, a)
  {
    FrontOfView(c);
    AfterRefillView(c);
    ReadyReloaded(v);
    DrainedFrom(v, c.AfterRefill().View(), n, admit, a);
    FrontOfView(c.AfterRefill());
    hide Core.Inv, Core.View, Drained, Ready;
  }

  /** A bulk receive that had already produced `done`. */
  function Joined<A, T>(done: seq<(nat, T)>, d: Drain<A, T>): Drain<A, T> { d.(out := done + d.out) }

  lemma MoveNothing<T>(c: Core<T>)
    requires c.Inv() && c.active != [] && c.Front().fastLeft == 0
    ensures c.AfterMove(0) == c
  {
    FrontOfView(c);
    var l := c.Front().view;
    assert l.TakenTimes(0) == l;
    assert c.lanes[c.active[0] := Some(LaneState(l, 0, true))] == c.lanes;
  }

  lemma ChunkableFront<T>(c: Core<T>, take: nat)
    requires c.Inv() && c.active != [] && 0 < take <= c.budget && take <= |c.Front().view.window|
    requires c.Front().view.unreleased + take <= c.Front().view.batch
    requires c.Front().view.burst + take <= PREFETCH_LIMIT
    ensures Chunkable(c.View(), take) && c.View().active == c.active && c.View().budget == c.budget
  {
    FrontOfView(c);
  }

  /** A chunk moved from the front lane, against single receives. */
  lemma DrainChunk<A, T>(c: Core<T>, take: nat, n: nat, admit: (A, T) -> (A, bool), a: A)
    requires c.Inv() && c.active != [] && 0 < take <= n && take <= c.budget && take <= |c.Front().view.window|
    requires c.Front().view.unreleased + take <= c.Front().view.batch
    requires c.Front().view.burst + take <= PREFETCH_LIMIT
    ensures var (m, last) := Accepted(c.Front().view.window[..take], admit, a);
      var out := Labeled(c.active[0], c.Front().view.window[..m]);
      var d := c.AfterMove(m);
      && d.Inv()
      && (m < take ==> Drained(c.View(), n, admit, a) == Drain(d.View(), last, out, true))
      && (m == take ==> Drained(c.View(), n, admit, a) == Joined(out, Drained(d.View(), n - m, admit, last)))
  {
    hide Core.Inv, Core.View, Drained, AfterChunk, Accepted, Labeled, Core.AfterMove, Chan.Valid;
    FrontOfView(c);
    ChunkableFront(c, take);
    ChunkIsReceives(c.View(), take, n, admit, a);
    var (m, last) := Accepted(c.Front().view.window[..take], admit, a);
    AfterMoveView(c, m);
    AfterMoveInv(c, m);
  }

  lemma JoinedTwice<A, T>(x: seq<(nat, T)>, y: seq<(nat, T)>, d: Drain<A, T>)
    ensures Joined(x, Joined(y, d)) == Joined(x + y, d)
  {
    assert x + (y + d.out) == x + y + d.out;
  }

  lemma JoinedLast<A, T>(x: seq<(nat, T)>, d: Drain<A, T>)
    ensures Joined(x, d) == d.(out := x + d.out)
    ensures d.out == [] ==> Joined(x, d).out == x
  {
  }

  lemma NoneJoined<A, T>(d: Drain<A, T>)
    ensures Joined([], d) == d
  {
  }

  lemma DrainMoved<A, T>(c: Core<T>, take: nat, n: nat, admit: (A, T) -> (A, bool), a: A, moved: seq<T>, last: A)
    requires c.Inv() && c.active != [] && c.Front().fastLeft == 0
    requires take <= n && take <= c.budget && take <= |c.Front().view.window|
    requires c.Front().view.unreleased + take <= c.Front().view.batch
    requires c.Front().view.burst + take <= PREFETCH_LIMIT
    requires (|moved|, last) == Accepted(c.Front().view.window[..take], admit, a)
    requires moved == c.Front().view.window[..|moved|]
    ensures var out, d := Labeled(c.active[0], moved), c.AfterMove(|moved|);
      && d.Inv() && |moved| <= take
      && (|moved| < take ==> Drained(c.View(), n, admit, a) == Drain(d.View(), last, out, true))
      && (|moved| == take ==> Drained(c.View(), n, admit, a) == Joined(out, Drained(d.View(), n - |moved|, admit, last)))
      && (take == 0 ==> d == c)
  {
    hide Core.Inv, Core.View, Drained, Accepted, Core.AfterMove;
    FrontOfView(c);
    if take == 0 {
      MoveNothing(c);
      AcceptedNone(c.Front().view.window, admit, a);
      NoneJoined(Drained(c.View(), n, admit, a));
    } else {
      DrainChunk(c, take, n, admit, a);
    }
  }

  /** How far a bulk receive is from a poll budget it can use. */
  function Stale<T>(v: Chan<T>): nat {
    if v.budget != 0 then 0 else if v.active != [] then 1 else 2
  }

  /** A step of a bulk receive that moved nothing brought it closer to its end. */
  predicate Closer<T>(w: Chan<T>, v: Chan<T>) {
    w.Load() < v.Load() || (w.Load() == v.Load() && Stale(w) < Stale(v))
  }

  lemma ReloadIsCloser<T>(v: Chan<T>, c: Core<T>)
    requires v.Valid() && c.Inv() && c.View() == Refreshed(v) && c.active != [] && c.budget == 0
    ensures Closer(c.AfterRefill().View(), v)
  {
  }

  /** A receiver with nothing in rotation. */
  lemma NewInv<T>(c: Core<T>)
    requires |c.paused| == |c.lanes| && c.active == []
    requires forall k :: 0 <= k < |c.lanes| && c.lanes[k].Some? ==>
      c.lanes[k].value.view.Valid() && c.lanes[k].value.fastLeft == 0 && !c.lanes[k].value.queued
    ensures c.Inv()
  {
  }

  // One chosen lane

  function AfterPause<T>(c: Core<T>, k: nat): Core<T>
    requires k < |c.lanes| && k < |c.paused| && c.lanes[k].Some?
  {
    c.(lanes := c.lanes[k := Some(LaneState(c.lanes[k].value.view.(unreleased := 0), 0, false))],
       paused := c.paused[k := true],
       active := Without(c.active, k))
  }

  lemma SomeInView<T>(c: Core<T>, k: nat)
    requires c.Inv() && k < |c.lanes| && c.lanes[k].Some?
    ensures c.View().Valid() && k < |c.View().lanes| && c.View().lanes[k].Some? && k < |c.paused|
  {
  }

  lemma AfterPauseView<T>(c: Core<T>, k: nat)
    requires c.Inv() && k < |c.lanes| && c.lanes[k].Some?
    ensures k < |c.paused| && AfterPause(c, k).View() == Paused(c.View(), k)
  {
    ViewOfPut(c, k, Some(LaneState(c.lanes[k].value.view.(unreleased := 0), 0, false)));
  }

  lemma AfterPauseInv<T>(c: Core<T>, k: nat)
    requires c.Inv() && k < |c.lanes| && c.lanes[k].Some?
    ensures k < |c.paused| && AfterPause(c, k).Inv()
  {
    hide Chan.Valid, Paused;
    SomeInView(c, k);
    AfterPauseView(c, k);
    PausedValid(c.View(), k);
    if c.active != [] && c.active[0] != k {
      WithoutFirst(c.active, k);
    }
  }

  /** A lane neither queued nor paused is marked and put at the end of the rotation. */
  function AfterQueue<T>(c: Core<T>, k: nat): Core<T>
    requires k < |c.lanes| && c.lanes[k].Some?
  {
    var l := c.lanes[k].value;
    c.(lanes := c.lanes[k := Some(l.(view := l.view.(pending := true), queued := true))],
       marks := if l.view.pending then c.marks else c.marks + {k},
       active := c.active + [k])
  }

  lemma AfterQueueView<T>(c: Core<T>, k: nat)
    requires c.Inv() && k < |c.lanes| && c.lanes[k].Some?
    ensures HasLane(c.View(), k)
    ensures AfterQueue(c, k).View() == Signaled(c.View(), k).(active := c.active + [k])
  {
    var l := c.lanes[k].value;
    ViewOfPut(c, k, Some(l.(view := l.view.(pending := true), queued := true)));
  }

  lemma AfterQueueInv<T>(c: Core<T>, k: nat)
    requires c.Inv() && k < |c.lanes| && c.lanes[k].Some? && k !in c.active && k < |c.paused| && !c.paused[k]
    ensures AfterQueue(c, k).Inv()
  {
    hide Chan.Valid, Signaled;
    SomeInView(c, k);
    AfterQueueView(c, k);
    SignaledValid(c.View(), k);
    SignaledSame(c.View(), k);
    QueuedValid(Signaled(c.View(), k), k);
  }

  lemma SignaledSame<T>(v: Chan<T>, k: nat)
    requires HasLane(v, k)
    ensures var w := Signaled(v, k);
      HasLane(w, k) && w.paused == v.paused && w.active == v.active && |w.lanes| == |v.lanes|
  {
  }

  lemma UnpausedInv<T>(c: Core<T>, k: nat)
    requires c.Inv() && k < |c.paused|
    ensures c.(paused := c.paused[k := false]).Inv()
  {
    hide Chan.Valid;
    UnpausedValid(c.View(), k);
  }

  /** Resuming is unpausing, marking and queueing. */
  lemma ResumeView<T>(c: Core<T>, k: nat)
    requires c.Inv() && k < |c.lanes| && c.lanes[k].Some? && k < |c.paused| && c.paused[k]
    ensures k !in c.active && HasLane(c.View(), k) && c.View().Valid()
    ensures var d := c.(paused := c.paused[k := false]);
      d.Inv() && AfterQueue(d, k).Inv() && AfterQueue(d, k).View() == Resumed(c.View(), k)
  {
    hide Core.Inv;
    SomeInView(c, k);
    ValidLane(c.View(), k);
    UnpausedInv(c, k);
    var d := c.(paused := c.paused[k := false]);
    AfterQueueInv(d, k);
    AfterQueueView(d, k);
  }

  /** The chosen lane reloaded, with a value taken and its burst left alone. */
  function AfterTarget<T>(c: Core<T>, k: nat): Core<T>
    requires k < |c.lanes| && c.lanes[k].Some? && c.lanes[k].value.view.Refilled().window != []
  {
    var s := c.lanes[k].value;
    var l := s.view.Refilled();
    c.Put(k, Some(LaneState(l.Taken(false).(burst := l.burst), 0, s.queued)))
  }

  lemma AfterTargetInv<T>(c: Core<T>, k: nat)
    requires c.Inv() && k < |c.lanes| && c.lanes[k].Some? && c.lanes[k].value.view.Refilled().window != []
    ensures AfterTarget(c, k).Inv()
  {
    hide Chan.Valid;
    SomeInView(c, k);
    ValidLane(c.View(), k);
    var s := c.lanes[k].value;
    var l := s.view.Refilled();
    ViewOfPut(c, k, Some(LaneState(l.Taken(false).(burst := l.burst), 0, s.queued)));
    LaneReplaced(c.View(), k, l.Taken(false).(burst := l.burst));
  }

  lemma TargetView<T>(c: Core<T>, k: nat)
    requires c.Inv() && k < |c.lanes| && c.lanes[k].Some? && c.lanes[k].value.view.Refilled().window != []
    ensures k < |c.paused| && HasLane(c.View(), k) && c.View().Valid()
    ensures var d := AfterTarget(c, k);
      var e := if c.paused[k] || c.lanes[k].value.queued then d else AfterQueue(d, k);
      e.Inv() && Targeted(c.View(), k) == (e.View(), Some(c.lanes[k].value.view.Refilled().window[0]))
  {
    SomeInView(c, k);
    var s := c.lanes[k].value;
    var l := s.view.Refilled();
    var d := AfterTarget(c, k);
    AfterTargetInv(c, k);
    ViewOfPut(c, k, Some(LaneState(l.Taken(false).(burst := l.burst), 0, s.queued)));
    if !c.paused[k] && !s.queued {
      AfterQueueView(d, k);
      AfterQueueInv(d, k);
    }
  }

  /** The chosen lane claimed back with what a racing send published. */
  function AfterRace<T>(c: Core<T>, k: nat, late: seq<T>, marked: bool): Core<T>
    requires k < |c.lanes| && c.lanes[k].Some?
  {
    var s := c.lanes[k].value;
    c.(lanes := c.lanes[k := Some(LaneState(s.view.Refilled().Claimed(late), 0, s.queued))],
       marks := if marked then c.marks + {k} else c.marks)
  }

  lemma AfterRaceView<T>(c: Core<T>, k: nat, late: seq<T>, marked: bool)
    requires c.Inv() && k < |c.lanes| && c.lanes[k].Some? && c.lanes[k].value.view.Refilled().window == [] && late != []
    ensures HasLane(c.View(), k) && AfterRace(c, k, late, marked).View() == Raced(c.View(), k, late, marked)
  {
    var s := c.lanes[k].value;
    assert s.view.Refilled().Claimed(late) == s.view.Claimed(late);
    ViewOfPut(c, k, Some(LaneState(s.view.Claimed(late), 0, s.queued)));
  }

  lemma AfterRaceInv<T>(c: Core<T>, k: nat, late: seq<T>, marked: bool)
    requires c.Inv() && k < |c.lanes| && c.lanes[k].Some? && c.lanes[k].value.view.Refilled().window == [] && late != []
    ensures AfterRace(c, k, late, marked).Inv()
  {
    hide Chan.Valid, Raced;
    SomeInView(c, k);
    AfterRaceView(c, k, late, marked);
    RacedValid(c.View(), k, late, marked);
  }

  lemma NoRace<T>(c: Core<T>, k: nat, late: seq<T>, marked: bool)
    requires c.Inv() && k < |c.lanes| && c.lanes[k].Some? && (c.lanes[k].value.view.Refilled().window != [] || late == [])
    ensures HasLane(c.View(), k) && Raced(c.View(), k, late, marked) == c.View()
  {
  }

  /** The chosen lane settled empty. */
  function AfterTargetEmpty<T>(c: Core<T>, k: nat): Core<T>
    requires k < |c.lanes| && k < |c.paused| && c.lanes[k].Some?
  {
    var l := c.lanes[k].value.view.Refilled().Settled();
    c.(lanes := c.lanes[k := if l.dropped then None else Some(LaneState(l, 0, false))],
       paused := if l.dropped then c.paused[k := false] else c.paused,
       active := Without(c.active, k))
  }

  lemma TargetEmptyView<T>(c: Core<T>, k: nat)
    requires c.Inv() && k < |c.lanes| && c.lanes[k].Some? && c.lanes[k].value.view.Refilled().window == []
    ensures k < |c.paused| && HasLane(c.View(), k) && c.View().Valid()
    ensures Targeted(c.View(), k) == (AfterTargetEmpty(c, k).View(), None)
  {
    SomeInView(c, k);
    var l := c.lanes[k].value.view.Refilled().Settled();
    ViewOfPut(c, k, if l.dropped then None else Some(LaneState(l, 0, false)));
    hide Chan.Valid;
  }

  lemma TargetEmptyInv<T>(c: Core<T>, k: nat)
    requires c.Inv() && k < |c.lanes| && c.lanes[k].Some? && c.lanes[k].value.view.Refilled().window == []
    ensures k < |c.paused| && AfterTargetEmpty(c, k).Inv()
  {
    hide Chan.Valid, Targeted;
    TargetEmptyView(c, k);
    TargetedValid(c.View(), k);
    if c.active != [] && c.active[0] != k {
      WithoutFirst(c.active, k);
    }
  }
}
