/** The MPSC receiver: lanes updated in place, an active rotation, a poll budget
    and one fast window. Every operation is specified on `View`, the state with
    the fast window refunded, by the scheduling rules for single values. */
module MpscReceiver {
  import opened Basics
  import opened MpscLane
  import opened MpscScheduling
  import opened MpscSchedulingTheorems
  import opened MpscMixed
  import opened MpscReceiverCore

  ghost function StateOf<T>(l: Lane?<T>): Option<LaneState<T>>
    reads l
  {
    if l == null || !l.Valid() then None else Some(LaneState(l.View(), l.fastLeft, l.queued))
  }

  ghost predicate Within<T>(ls: seq<Lane?<T>>, repr: set<Lane<T>>) {
    forall k :: 0 <= k < |ls| && ls[k] != null ==> ls[k] in repr
  }

  /** Every slot that holds a lane holds its own. */
  ghost predicate Sound<T>(ls: seq<Lane?<T>>, repr: set<Lane<T>>)
    reads repr
    ensures Sound(ls, repr) ==> Within(ls, repr)
  {
    && Within(ls, repr)
    && forall k :: 0 <= k < |ls| && ls[k] != null ==> ls[k].key.slot == k && ls[k].Valid()
  }

  ghost function States<T>(ls: seq<Lane?<T>>, repr: set<Lane<T>>): (r: seq<Option<LaneState<T>>>)
    requires Within(ls, repr)
    reads repr
    ensures |r| == |ls|
    ensures forall k :: 0 <= k < |ls| ==> r[k] == StateOf(ls[k])
  {
    if ls == [] then [] else States(ls[..|ls| - 1], repr) + [StateOf(ls[|ls| - 1])]
  }

  function Values<T>(out: seq<(nat, T)>): seq<T> {
    if out == [] then [] else [out[0].1] + Values(out[1..])
  }

  lemma CollectSlotsStep<T>(c: Chan<T>, lo: nat, hi: nat)
    requires c.Valid() && lo < hi <= |c.lanes|
    ensures c.CollectSlot(lo).Valid()
    ensures CollectSlots(c, lo, hi) == CollectSlots(c.CollectSlot(lo), lo + 1, hi)
  {
    CollectSlotValid(c, lo);
  }

  lemma CollectSlotsNone<T>(c: Chan<T>, hi: nat)
    requires c.Valid() && hi <= |c.lanes|
    ensures CollectSlots(c, hi, hi) == c
  {
  }

  lemma QueueSlotsStep<T>(c: Chan<T>, lo: nat)
    requires c.Valid() && lo < |c.lanes|
    ensures QueueSlots(c, lo) == QueueSlots(c.QueueSlot(lo), lo + 1)
  {
  }

  lemma QueueSlotsNone<T>(c: Chan<T>)
    requires c.Valid()
    ensures QueueSlots(c, |c.lanes|) == c
  {
  }

  lemma NewStates<T>(ls: seq<Lane?<T>>, repr: set<Lane<T>>)
    requires forall k :: 0 <= k < |ls| ==> ls[k] != null && ls[k] in repr
    requires forall k :: 0 <= k < |ls| ==>
      ls[k].key.slot == k && ls[k].Valid() && ls[k].fastLeft == 0 && !ls[k].queued
    ensures Sound(ls, repr)
    ensures forall k :: 0 <= k < |ls| && States(ls, repr)[k].Some? ==>
      var s := States(ls, repr)[k].value; s.view.Valid() && s.fastLeft == 0 && !s.queued
  {
  }

  datatype TargetResult<T> = Got(value: T) | NothingYet | Disconnected

  /** A targeted receive from lane `k` in state `c` leaves `d` and returns `r`. */
  ghost predicate TargetedAs<T>(c: Chan<T>, k: nat, d: Chan<T>, r: TargetResult<T>) {
    && c.Valid() && HasLane(c, k) && d == Targeted(c, k).0
    && match Targeted(c, k).1
       case Some(value) => r == Got(value)
       case None => r == if c.lanes[k].value.dropped then Disconnected else NothingYet
  }

  class Receiver<T> {
    var lanes: seq<Lane?<T>>
    var paused: seq<bool>
    var marks: set<nat>
    var active: seq<nat>
    var budget: nat
    var cursor: nat
    var fastSlot: nat
    const channel: nat
    ghost const repr: set<Lane<T>>

    /** A receiver that has adopted the given lanes, each in the slot of its key. */
    constructor (channel: nat, lanes: seq<Lane<T>>)
      requires forall k :: 0 <= k < |lanes| ==>
        lanes[k].key.slot == k && lanes[k].Valid() && lanes[k].fastLeft == 0 && !lanes[k].queued
      ensures Valid() && this.channel == channel && this.lanes == lanes && active == [] && marks == {}
    {
      this.channel := channel;
      this.lanes := lanes;
      paused := seq(|lanes|, _ => false);
      marks, active, budget, cursor, fastSlot := {}, [], READY_POLL_INTERVAL, 0, 0;
      repr := set l | l in lanes;
      new;
      NewStates(this.lanes, repr);
      hide Sound, StateOf;
      NewInv(Value());
    }

    ghost function Value(): Core<T>
      requires Within(lanes, repr)
      reads this, repr
    {
      Core(States(lanes, repr), paused, marks, active, budget, cursor, fastSlot)
    }

    ghost function View(): (c: Chan<T>)
      requires Within(lanes, repr)
      reads this, repr
      ensures |c.lanes| == |lanes|
    {
      Value().View()
    }

    ghost predicate Valid()
      reads this, repr
    {
      Sound(lanes, repr) && Value().Inv()
    }

    lemma ValidView()
      requires Valid()
      ensures Within(lanes, repr) && View().Valid() && View() == Value().View()
    {
    }

    lemma StateAt(k: nat)
      requires Sound(lanes, repr) && k < |lanes|
      ensures Value().lanes[k] == StateOf(lanes[k])
      ensures lanes[k] == null ==> StateOf(lanes[k]) == None
      ensures lanes[k] != null ==>
        lanes[k].Valid() && StateOf(lanes[k]) == Some(LaneState(lanes[k].View(), lanes[k].fastLeft, lanes[k].queued))
    {
    }

    /** Only lane `k` changed. */
    twostate lemma LaneChanged(k: nat)
      requires old(Sound(lanes, repr)) && lanes == old(lanes) && k < |lanes| && lanes[k] != null && lanes[k].Valid()
      requires forall o: Lane<T> {:trigger o in repr} :: o in repr && o != lanes[k] ==> unchanged(o)
      ensures Sound(lanes, repr) && States(lanes, repr) == old(States(lanes, repr))[k := StateOf(lanes[k])]
    {
    }

    /** Consumes one ready-page entry. */
    method CollectSlot(k: nat)
      requires Valid() && k < |lanes|
      modifies this`marks, this`active, repr
      ensures Valid() && View() == old(View()).CollectSlot(k)
    {
      hide Sound, StateOf, Core.Inv, Core.View, Chan.CollectSlot;
      ghost var c := Value();
      CollectSlotInv(c, k);
      CollectSlotView(c, k);
      StateAt(k);
      if k in marks {
        var lane := lanes[k];
        if lane != null && !paused[k] && lane.pending && !lane.queued {
          lane.queued := true;
          LaneChanged(k);
          StateAt(k);
          active := active + [k];
        }
        marks := marks - {k};
      }
      assert Value() == c.CollectSlot(k);
    }

    /** Consumes the ready-page entries of one group. */
    method CollectGroup(lo: nat, hi: nat)
      requires Valid() && lo <= hi <= |lanes|
      modifies this`marks, this`active, repr
      ensures Valid() && View() == CollectSlots(old(View()), lo, hi)
    {
      hide Valid, View, Value, Chan.Valid, Chan.CollectSlot, CollectSlots, Chan.Load;
      ValidView();
      ghost var d := View();
      var slot := lo;
      while slot < hi
        invariant lo <= slot <= hi && Valid() && Within(lanes, repr) && View().Valid()
        invariant CollectSlots(View(), slot, hi) == CollectSlots(d, lo, hi)
      {
        CollectSlotsStep(View(), slot, hi);
        CollectSlot(slot);
        ValidView();
        slot := slot + 1;
      }
      CollectSlotsNone(View(), hi);
    }

    /** Scans the ready index from the cursor. */
    method CollectReady(all: bool)
      requires Valid()
      modifies this`marks, this`active, this`cursor, repr
      ensures Valid() && View() == Collected(old(View()), all)
    {
      hide Valid, View, Chan.Valid, CollectSlots, Chan.Load, Visited, Value, CollectGroups;
      ValidView();
      SameMarks();
      ghost var c := View();
      var count: nat := (|lanes| + GROUP_LANES - 1) / GROUP_LANES;
      var next: nat := cursor;
      var i: nat := 0;
      while i < count
        invariant i <= count && Valid() && Within(lanes, repr) && View().Valid()
        invariant CollectGroups(View(), next, count - i, all) == Collected(c, all)
      {
        var g: nat := if next < count then next else 0;
        var lo: nat, hi: nat := g * GROUP_LANES, Min((g + 1) * GROUP_LANES, |lanes|);
        ghost var d := View();
        SameMarks();
        GroupsStep(d, next, count - i, all);
        i := i + 1;
        next := g + 1;
        if exists k :: k in marks && lo <= k < hi {
          CollectGroup(lo, hi);
          MoveCursor(next);
          ValidView();
          VisitedMarked(d, g);
          if !all {
            return;
          }
        } else {
          VisitedUnmarked(d, g);
        }
      }
      GroupsDone(View(), next, all);
    }

    method QueueSlot(k: nat)
      requires Valid() && k < |lanes|
      modifies this`active, repr
      ensures Valid() && View() == old(View()).QueueSlot(k)
    {
      hide Sound, StateOf, Core.Inv, Core.View, Chan.QueueSlot;
      ghost var c := Value();
      QueueSlotView(c, k);
      QueueSlotInv(c, k);
      StateAt(k);
      var lane := lanes[k];
      if lane != null && !paused[k] && !lane.queued {
        lane.queued := true;
        LaneChanged(k);
        StateAt(k);
        active := active + [k];
      }
      assert Value() == c.QueueSlot(k);
    }

    /** Queues every lane that is not paused, so that the next receives look at it. */
    method PollAllLanes()
      requires Valid()
      modifies this`active, repr
      ensures Valid() && View() == AllPolled(old(View()))
    {
      hide Valid, View, Value, Chan.Valid, Chan.QueueSlot, QueueSlots;
      ValidView();
      ghost var c := View();
      var slot: nat := 0;
      while slot < |lanes|
        invariant slot <= |lanes| && Valid() && Within(lanes, repr) && View().Valid()
        invariant QueueSlots(View(), slot) == QueueSlots(c, 0)
      {
        QueueSlotsStep(View(), slot);
        QueueSlot(slot);
        ValidView();
        slot := slot + 1;
      }
      QueueSlotsNone(View());
    }

    lemma SameMarks()
      requires Within(lanes, repr)
      ensures View().marks == marks && View().cursor == cursor && View().active == active && View().budget == budget
      ensures View().paused == paused
    {
    }

    method MoveCursor(next: nat)
      requires Valid()
      modifies this`cursor
      ensures Valid() && View() == old(View()).(cursor := next)
    {
      hide Sound, Core.Inv, Core.View;
      CursorMoved(Value(), next);
      cursor := next;
    }

    /** Refreshes the rotation when it is empty or the poll budget is used up. */
    method RefreshActive() returns (any: bool)
      requires Valid()
      modifies this`marks, this`active, this`cursor, this`budget, repr
      ensures Valid() && View() == Refreshed(old(View())) && any == (active != [])
    {
      hide Valid, View, Value, Chan.Valid, Collected;
      ValidView();
      SameMarks();
      if active == [] {
        CollectReady(true);
        return active != [];
      }
      if budget == 0 {
        CollectReady(false);
        ValidView();
        SameMarks();
        ResetBudget();
      }
      ValidView();
      SameMarks();
      return true;
    }

    method ResetBudget()
      requires Valid()
      modifies this`budget
      ensures Valid() && View() == old(View()).(budget := READY_POLL_INTERVAL)
    {
      hide Sound, Core.Inv, Core.View;
      BudgetRaised(Value(), READY_POLL_INTERVAL);
      budget := READY_POLL_INTERVAL;
    }

    /** Receives one value. An open fast window skips lane lookup, rotation, slot
        release and readiness checks, and is not observable. */
    method TryRecv() returns (r: Option<(nat, T)>)
      requires Valid()
      modifies this, repr
      ensures Valid() && (View(), r) == Received(old(View()), false)
    {
      hide Sound, StateOf, Core.Inv, Core.View, Received;
      ghost var c := Value();
      var k := fastSlot;
      if k < |lanes| && lanes[k] != null {
        StateAt(k);
        var v := lanes[k].PopFast();
        LaneChanged(k);
        StateAt(k);
        if v.Some? {
          ReceiveFast(c, k);
          budget := budget - 1;
          return Some((k, v.value));
        }
        assert States(lanes, repr) == c.lanes;
      }
      r := TryRecvRefill();
    }

    /** Opens a fast window on the front lane and receives its first value, or
        takes the full receive path. */
    method TryRecvRefill() returns (r: Option<(nat, T)>)
      requires Valid()
      modifies this, repr
      ensures Valid() && (View(), r) == Received(old(View()), false)
    {
      hide Sound, StateOf, Core.Inv, Core.View, Received, Collected, Refreshed;
      ValidView();
      ghost var v := View();
      SameMarks();
      if budget == 0 && active != [] {
        RefreshDue(v);
        CollectReady(false);
        ResetBudget();
        ReceiveRefreshed(v, false);
      }
      if active != [] {
        r := GrantFront();
        if r.Some? {
          return;
        }
      }
      r := RecvRetrying(false);
    }

    /** Opens a fast window on the front lane and pops its first value. */
    method GrantFront() returns (r: Option<(nat, T)>)
      requires Valid() && active != [] && 0 < budget
      modifies this, repr
      ensures Valid()
      ensures r.Some? ==> (View(), r) == Received(old(View()), false)
      ensures r.None? ==> Received(View(), false) == Received(old(View()), false)
    {
      hide Sound, StateOf, Core.Inv, Core.View, Received;
      ghost var c := Value();
      FrontOfView(c);
      var k := active[0];
      StateAt(k);
      var v, left := GrantAt(k, budget);
      if v.Some? {
        budget := budget - 1;
        fastSlot := k;
        ReceiveGranted(c, left);
        return Some((k, v.value));
      }
      ReceiveReloaded(c, false);
      return None;
    }

    method GrantAt(k: nat, pollBudget: nat) returns (v: Option<T>, ghost left: nat)
      requires Sound(lanes, repr) && k < |lanes| && lanes[k] != null
      modifies repr
      ensures Sound(lanes, repr)
      ensures var s := old(StateOf(lanes[k])).value;
        var l := s.view.Refilled();
        if v.None? then States(lanes, repr) == old(States(lanes, repr))[k := Some(LaneState(l, 0, s.queued))]
        else
          && l.window != [] && v.value == l.window[0] && !l.Rotates(false)
          && left < pollBudget && left < PREFETCH_LIMIT
          && States(lanes, repr) == old(States(lanes, repr))[k := Some(LaneState(l.Taken(false), left, s.queued))]
    {
      hide Sound, StateOf;
      StateAt(k);
      var lane := lanes[k];
      lane.GrantFast(pollBudget);
      v := lane.PopFast();
      left := lane.fastLeft;
      LaneChanged(k);
      StateAt(k);
    }

    /** Full receives until one returns a value or finds nothing; one that only
        released slots is tried again. */
    method RecvRetrying(fair: bool) returns (r: Option<(nat, T)>)
      requires Valid()
      modifies this, repr
      ensures Valid() && (View(), r) == Received(old(View()), fair)
    {
      hide Valid, View, Value, Received;
      ValidView();
      var retry := true;
      r := None;
      while retry
        invariant Valid() && Within(lanes, repr) && View().Valid()
        invariant retry ==> Received(View(), fair) == Received(old(View()), fair)
        invariant !retry ==> (View(), r) == Received(old(View()), fair)
        decreases retry, View().Load()
      {
        r, retry := TryRecvInner(fair);
        ValidView();
      }
    }

    /** The full receive path. Returns early, to be retried, once settling a lane
        released slots whose sender must be told. */
    method TryRecvInner(fair: bool) returns (r: Option<(nat, T)>, retry: bool)
      requires Valid()
      modifies this, repr
      ensures Valid()
      ensures !retry ==> (View(), r) == Received(old(View()), fair)
      ensures retry ==> Received(View(), fair) == Received(old(View()), fair) && View().Load() < old(View()).Load()
    {
      hide Valid, View, Value, Received, Refreshed, Chan.Load;
      ValidView();
      ghost var v0 := View();
      while true
        invariant Valid() && Within(lanes, repr) && View().Valid()
        invariant Received(View(), fair) == Received(v0, fair) && View().Load() <= v0.Load()
        decreases View().Load()
      {
        ghost var v := View();
        var any := RefreshActive();
        SameMarks();
        if !any {
          ReceiveNothing(v, fair);
          return None, false;
        }
        var poll, k := PollFront(v, fair);
        ValidView();
        match poll {
          case Item(value, _, _) => return Some((k, value)), false;
          case Empty(lane) =>
            if lane.Idle? && !lane.disconnected && lane.released {
              return None, true;
            }
        }
      }
    }

    /** Polls the front lane and puts it where the outcome says: back in front, at
        the end of the rotation, idle, or retired. */
    method PollFront(ghost v: Chan<T>, fair: bool) returns (poll: Poll<T>, k: nat)
      requires Valid() && active != [] && v.Valid() && View() == Refreshed(v)
      modifies this, repr
      ensures Valid()
      ensures poll.Item? ==> (View(), Some((k, poll.value))) == Received(v, fair)
      ensures poll.Empty? ==> Received(View(), fair) == Received(v, fair) && View().Load() < v.Load()
    {
      hide Sound, StateOf, Core.Inv, Core.View, Received, Refreshed;
      ghost var c := Value();
      FrontOfView(c);
      k := active[0];
      StateAt(k);
      poll := PollAt(k, fair);
      match poll {
        case Item(_, rotate, _) =>
          ReceiveTake(v, c, fair);
          PlaceTaken(c, fair, rotate);
        case Empty(lane) =>
          ReceiveSettle(v, c, fair);
          PlaceSettled(c, lane.disconnected);
      }
    }

    /** The front lane gave a value: it stays in front unless its burst ended. */
    method PlaceTaken(ghost c: Core<T>, fair: bool, rotate: bool)
      requires Within(lanes, repr) && c.Fronted() && c.Front().view.Refilled().window != []
      requires Value() == c.Put(c.active[0], Some(LaneState(c.Front().view.Refilled().Taken(fair), 0, true)))
      requires rotate == c.Front().view.Refilled().Rotates(fair)
      modifies this`active, this`budget
      ensures Value() == c.AfterTake(fair)
    {
      var k := active[0];
      active := active[1..];
      active := if rotate then active + [k] else [k] + active;
      budget := Spent(budget);
    }

    /** The front lane is empty: it leaves the rotation, and its slot too if its
        sender is gone. */
    method PlaceSettled(ghost c: Core<T>, disconnected: bool)
      requires Sound(lanes, repr) && c.Fronted() && c.active[0] < |c.paused| && !c.paused[c.active[0]]
      requires Value() == c.Put(c.active[0], Some(LaneState(c.Front().view.Refilled().Settled(), 0, false)))
      requires disconnected == c.Front().view.dropped
      modifies this`active, this`lanes, this`paused
      ensures Sound(lanes, repr) && Value() == c.AfterSettle()
    {
      hide Sound, StateOf;
      var k := active[0];
      active := active[1..];
      if disconnected {
        RetireLane(k);
        assert old(paused)[k := false] == old(paused);
        assert States(lanes, repr) == c.lanes[k := None];
      }
    }

    method PollAt(k: nat, fair: bool) returns (poll: Poll<T>)
      requires Sound(lanes, repr) && k < |lanes| && lanes[k] != null
      modifies repr
      ensures Sound(lanes, repr)
      ensures var s := old(StateOf(lanes[k])).value;
        var l := s.view.Refilled();
        if l.window == [] then
          && poll == Empty(Idle(l.dropped, l.unreleased != 0))
          && States(lanes, repr) == old(States(lanes, repr))[k := Some(LaneState(l.Settled(), 0, false))]
        else
          && poll == Item(l.window[0], l.Rotates(fair), l.Releases())
          && States(lanes, repr) == old(States(lanes, repr))[k := Some(LaneState(l.Taken(fair), 0, s.queued))]
    {
      hide Sound, StateOf;
      StateAt(k);
      poll := lanes[k].PollOne(fair, []);
      LaneChanged(k);
      StateAt(k);
    }

    /** A slot loses its lane. */
    method RetireLane(k: nat)
      requires Sound(lanes, repr) && k < |lanes| && k < |paused|
      modifies this`lanes, this`paused
      ensures Sound(lanes, repr)
      ensures Value() == old(Value()).(lanes := old(Value()).lanes[k := None], paused := old(paused)[k := false])
    {
      ghost var s := States(lanes, repr);
      lanes, paused := lanes[k := null], paused[k := false];
      assert States(lanes, repr) == s[k := None];
    }

    /** Receives one value and rotates to the next ready lane. A lone lane keeps its
        window, which is not observable. */
    method TryRecvFair() returns (r: Option<(nat, T)>)
      requires Valid()
      modifies this, repr
      ensures Valid() && (View(), r) == ReceivedFair(old(View()))
    {
      hide Valid, View, Value, Received, Collected;
      ValidView();
      SameMarks();
      ghost var v := View();
      if exists k :: k in marks && k < |lanes| {
        CollectReady(true);
      } else {
        CollectedNothing(v);
      }
      ResetBudget();
      ValidView();
      SameMarks();
      ghost var w := View();
      assert ReceivedFair(v) == Received(w, true);
      if |active| == 1 {
        r := FairFront();
        if r.Some? {
          return;
        }
      }
      r := RecvRetrying(true);
    }

    /** Pops the lone lane's next value through its fast window. */
    method FairFront() returns (r: Option<(nat, T)>)
      requires Valid() && |active| == 1 && PREFETCH_LIMIT <= budget
      modifies this, repr
      ensures Valid()
      ensures r.Some? ==> (View(), r) == Received(old(View()), true)
      ensures r.None? ==> Received(View(), true) == Received(old(View()), true)
    {
      hide Sound, StateOf, Core.Inv, Core.View, Received;
      ghost var c := Value();
      FrontOfView(c);
      var k := active[0];
      StateAt(k);
      var v := lanes[k].PopFair(budget);
      LaneChanged(k);
      StateAt(k);
      if v.Some? {
        ReceiveFairFast(c, lanes[k].fastLeft);
        budget := budget - 1;
        fastSlot := k;
        return Some((k, v.value));
      }
      ReceiveFairDeclined(c);
      return None;
    }

    /** One step of a bulk receive: settles an empty front lane or moves one chunk
        from it. */
    method DrainFront<A>(ghost v: Chan<T>, limit: nat, admit: (A, T) -> (A, bool), a: A)
      returns (moved: seq<T>, last: A, rejected: bool, ghost from: seq<(nat, T)>)
      requires Valid() && active != [] && v.Valid() && View() == Refreshed(v) && 0 < limit
      modifies this, repr
      ensures Valid() && moved == Values(from) && |moved| <= limit
      ensures rejected ==> Drained(v, limit, admit, a) == Drain(View(), last, from, true)
      ensures !rejected ==>
        Drained(v, limit, admit, a) == Joined(from, Drained(View(), limit - |moved|, admit, last))
      ensures !rejected && moved == [] ==> Closer(View(), v)
    {
      hide Sound, StateOf, Core.Inv, Core.View, Drained, Refreshed, Values, Joined, Chan.Load, Stale, Chan.Valid;
      ghost var c := Value();
      SameMarks();
      FrontOfView(c);
      StateAt(active[0]);
      var empty, _ := RefillAt(active[0], []);
      if empty {
        DrainSettle(v, c, limit, admit, a);
        PlaceSettled(c, lanes[active[0]].dropped);
        NoValues<T>();
        ValidView();
        NoneJoined(Drained(View(), limit, admit, a));
        return [], a, false, [];
      }
      DrainReloaded(v, c, limit, admit, a);
      assert Value() == c.AfterRefill();
      moved, last, rejected, from := MoveFront(limit, admit, a);
      if moved == [] && !rejected {
        ReloadIsCloser(v, c);
      }
    }

    /** Moves one chunk from the front lane. */
    method MoveFront<A>(limit: nat, admit: (A, T) -> (A, bool), a: A)
      returns (moved: seq<T>, last: A, rejected: bool, ghost from: seq<(nat, T)>)
      requires Valid() && Deliverable(View()) && Value().lanes[active[0]].value.fastLeft == 0 && 0 < limit
      modifies this, repr
      ensures Valid() && moved == Values(from) && |moved| <= limit
      ensures rejected ==> Drained(old(View()), limit, admit, a) == Drain(View(), last, from, true)
      ensures !rejected ==>
        Drained(old(View()), limit, admit, a) == Joined(from, Drained(View(), limit - |moved|, admit, last))
      ensures !rejected && moved == [] ==> View() == old(View()) && old(budget) == 0
    {
      hide Sound, StateOf, Core.Inv, Core.View, Drained, Values, Labeled, Accepted, Joined;
      ghost var c := Value();
      SameMarks();
      FrontOfView(c);
      var k := active[0];
      StateAt(k);
      var take: nat := Min(Min(limit, budget), lanes[k].ChunkLimit());
      var rotate: bool;
      moved, last, rotate := MoveAt(k, take, admit, a);
      DrainMoved(c, take, limit, admit, a, moved, last);
      rejected := |moved| < take;
      from := Labeled(k, moved);
      ValuesLabeled(k, moved);
      PlaceMoved(c, |moved|, rotate);
    }

    /** The front lane gave a chunk: the budget is charged and a full burst rotates. */
    method PlaceMoved(ghost c: Core<T>, n: nat, rotate: bool)
      requires Within(lanes, repr) && c.Fronted() && n <= |c.Front().view.window| && n <= c.budget
      requires Value() == c.Put(c.active[0], Some(LaneState(c.Front().view.TakenTimes(n), 0, true)))
      requires rotate == (c.Front().view.burst + n == PREFETCH_LIMIT)
      modifies this`active, this`budget
      ensures Value() == c.AfterMove(n)
    {
      budget := budget - n;
      if rotate {
        active := active[1..] + [active[0]];
      }
    }

    method MoveAt<A>(k: nat, take: nat, admit: (A, T) -> (A, bool), a: A) returns (moved: seq<T>, last: A, rotate: bool)
      requires Sound(lanes, repr) && k < |lanes| && lanes[k] != null && lanes[k].Valid() && lanes[k].fastLeft == 0
      requires take <= lanes[k].ChunkLimit()
      modifies repr
      ensures Sound(lanes, repr)
      ensures var s := old(StateOf(lanes[k])).value;
        && take <= |s.view.window| && (|moved|, last) == Accepted(s.view.window[..take], admit, a)
        && moved == s.view.window[..|moved|]
        && rotate == (s.view.burst + |moved| == PREFETCH_LIMIT)
        && States(lanes, repr) ==
           old(States(lanes, repr))[k := Some(LaneState(s.view.TakenTimes(|moved|), 0, s.queued))]
    {
      hide Sound, StateOf, Accepted;
      StateAt(k);
      moved, last, rotate := lanes[k].MoveChunk(take, admit, a);
      LaneChanged(k);
      StateAt(k);
    }

    method RefillAt(k: nat, late: seq<T>) returns (empty: bool, kept: bool)
      requires Sound(lanes, repr) && k < |lanes| && lanes[k] != null
      modifies repr
      ensures Sound(lanes, repr) && lanes[k].dropped == old(lanes[k].dropped)
      ensures var s := old(StateOf(lanes[k])).value;
        var l := s.view.Refilled();
        && empty == (l.window == [] && late == []) && kept == (l.window == [] && late != [])
        && States(lanes, repr) == old(States(lanes, repr))[k := Some(if l.window != [] then LaneState(l, 0, s.queued)
                                                                     else if empty then LaneState(l.Settled(), 0, false)
                                                                     else LaneState(l.Claimed(late), 0, s.queued))]
    {
      hide Sound, StateOf;
      StateAt(k);
      var r := lanes[k].Refill(late);
      empty, kept := r.Some? && r.value.Idle?, r.Some? && r.value.Keep?;
      LaneChanged(k);
      StateAt(k);
    }

    /** Moves values in bulk, up to `limit`, while the admission test accepts them.
        Equals offering and receiving them one at a time. */
    method DrainInto<A>(limit: nat, admit: (A, T) -> (A, bool), a: A)
      returns (output: seq<T>, last: A, rejected: bool)
      requires Valid()
      modifies this, repr
      ensures Valid()
      ensures var d := Drained(old(View()), limit, admit, a);
        View() == d.chan && output == Values(d.out) && last == d.state && rejected == d.rejected
    {
      hide Valid, View, Value, Drained, Refreshed, Values, Joined, Chan.Valid, Chan.Load, Stale;
      ValidView();
      ghost var all := Drained(View(), limit, admit, a);
      ghost var done: seq<(nat, T)> := [];
      NoValues<T>();
      NoneJoined(all);
      output, last, rejected := [], a, false;
      var received: nat := 0;
      while received < limit
        invariant received <= limit && Valid() && Within(lanes, repr) && View().Valid()
        invariant output == Values(done) && !rejected
        invariant all == Joined(done, Drained(View(), limit - received, admit, last))
        decreases limit - received, View().Load(), Stale(View())
      {
        ghost var v := View();
        var any := RefreshActive();
        ValidView();
        SameMarks();
        if !any {
          DrainNothing(v, limit - received, admit, last);
          JoinedLast(done, Drained(v, limit - received, admit, last));
          return;
        }
        ghost var from: seq<(nat, T)>;
        var moved: seq<T>;
        ghost var before := last;
        moved, last, rejected, from := DrainFront(v, limit - received, admit, last);
        ValidView();
        ValuesJoin(done, from);
        if rejected {
          JoinedLast(done, Drained(v, limit - received, admit, before));
          output := output + moved;
          return;
        }
        JoinedTwice(done, from, Drained(View(), limit - received - |moved|, admit, last));
        done := done + from;
        output := output + moved;
        received := received + |moved|;
      }
      DrainedNone(View(), admit, last);
      JoinedLast(done, Drained(View(), 0, admit, last));
    }

    /** Looks at every lane that is not paused, then moves values in bulk. */
    method TryRecvScan<A>(limit: nat, admit: (A, T) -> (A, bool), a: A)
      returns (output: seq<T>, last: A, rejected: bool)
      requires Valid()
      modifies this, repr
      ensures Valid()
      ensures var d := Drained(AllPolled(old(View())), limit, admit, a);
        View() == d.chan && output == Values(d.out) && last == d.state && rejected == d.rejected
    {
      hide Valid, View, Value, Drained, Values, AllPolled;
      ValidView();
      PollAllLanes();
      output, last, rejected := DrainInto(limit, admit, a);
    }

    /** The identifier names this channel and the very lane in its slot. */
    predicate Names(id: LaneId)
      reads this
    {
      && id.channel == channel && id.key.slot < |lanes|
      && var lane := lanes[id.key.slot]; lane != null && lane.key == id.key
    }

    /** Takes a lane out of the rotation; fails for an identifier without its lane. */
    method Pause(id: LaneId) returns (ok: bool)
      requires Valid()
      modifies this, repr
      ensures Valid() && ok == old(Names(id))
      ensures ok ==> HasLane(old(View()), id.key.slot) && View() == Paused(old(View()), id.key.slot)
      ensures !ok ==> View() == old(View())
    {
      hide Sound, StateOf, Core.Inv, Core.View, Paused, Without;
      if !Names(id) {
        return false;
      }
      var k := id.key.slot;
      ghost var c := Value();
      StateAt(k);
      AfterPauseView(c, k);
      AfterPauseInv(c, k);
      SomeInView(c, k);
      PauseAt(k);
      if paused[k] {
        PausedAgain(c, k);
        return true;
      }
      paused := paused[k := true];
      active := Without(active, k);
      return true;
    }

    /** Puts a paused lane back into the rotation; does nothing for one not paused. */
    method Resume(id: LaneId) returns (ok: bool)
      requires Valid()
      modifies this, repr
      ensures Valid() && ok == old(Names(id))
      ensures ok ==> HasLane(old(View()), id.key.slot) && View() == Resumed(old(View()), id.key.slot)
      ensures !ok ==> View() == old(View())
    {
      hide Sound, StateOf, Core.Inv, Core.View;
      if !Names(id) {
        return false;
      }
      var k := id.key.slot;
      ghost var c := Value();
      StateAt(k);
      SomeInView(c, k);
      SameMarks();
      if !paused[k] {
        return true;
      }
      ResumeView(c, k);
      paused := paused[k := false];
      QueueAt(k);
      return true;
    }

    /** Marks a lane and puts it at the end of the rotation. */
    method QueueAt(k: nat)
      requires Sound(lanes, repr) && k < |lanes| && lanes[k] != null
      modifies this`marks, this`active, repr
      ensures Sound(lanes, repr)
      ensures old(Value()).lanes[k].Some? && Value() == AfterQueue(old(Value()), k)
    {
      hide Sound, StateOf;
      StateAt(k);
      var lane := lanes[k];
      if !lane.pending {
        marks := marks + {k};
      }
      lane.pending := true;
      lane.queued := true;
      LaneChanged(k);
      StateAt(k);
      active := active + [k];
    }

    /** Receives from one chosen lane, paused or not. `late` is what a racing send
        publishes while the lane settles, `marked` whether it makes a ready-page entry
        before the lane is claimed back. */
    method TryRecvFrom(id: LaneId, late: seq<T>, marked: bool) returns (r: TargetResult<T>)
      requires Valid()
      modifies this, repr
      ensures Valid()
      ensures !old(Names(id)) ==> r == Disconnected && View() == old(View())
      ensures old(Names(id)) ==>
        && HasLane(old(View()), id.key.slot)
        && TargetedAs(Raced(old(View()), id.key.slot, late, marked), id.key.slot, View(), r)
    {
      hide Sound, StateOf, Core.Inv, Core.View, Without, Raced, TargetedAs, AfterTarget, AfterQueue, AfterTargetEmpty;
      if !Names(id) {
        return Disconnected;
      }
      var k := id.key.slot;
      ghost var c := Value();
      StateAt(k);
      SomeInView(c, k);
      var empty, kept := RefillAt(k, late);
      if empty {
        EmptyTargetedAs(c, k, marked);
        r := LeaveTarget(c, k);
      } else {
        FullTargetedAs(c, k, late, marked);
        MarkRaced(c, k, late, kept && marked);
        r := TakeTarget(RacedCore(c, k, late, marked), k);
      }
    }

    /** A racing send's ready-page entry. */
    method MarkRaced(ghost c: Core<T>, k: nat, ghost late: seq<T>, marked: bool)
      requires Sound(lanes, repr) && k < |c.lanes| && c.lanes[k].Some?
      requires marked ==> c.lanes[k].value.view.Refilled().window == []
      requires var l := c.lanes[k].value.view.Refilled();
        Value() == c.Put(k, Some(LaneState(if l.window != [] then l else l.Claimed(late), 0, c.lanes[k].value.queued)))
      modifies this`marks
      ensures var d := RacedCore(c, k, late, marked);
        Value() == d.Put(k, Some(LaneState(d.lanes[k].value.view.Refilled(), 0, c.lanes[k].value.queued)))
      ensures Sound(lanes, repr)
    {
      hide Sound, StateOf;
      if marked {
        marks := marks + {k};
      }
    }

    method LeaveTarget(ghost c: Core<T>, k: nat) returns (r: TargetResult<T>)
      requires Sound(lanes, repr) && k < |lanes| && lanes[k] != null
      requires k < |c.lanes| && k < |c.paused| && c.lanes[k].Some?
      requires Value() == c.Put(k, Some(LaneState(c.lanes[k].value.view.Refilled().Settled(), 0, false)))
      modifies this`active, this`lanes, this`paused
      ensures Sound(lanes, repr) && Value() == AfterTargetEmpty(c, k)
      ensures r == if c.lanes[k].value.view.dropped then Disconnected else NothingYet
    {
      hide Sound, StateOf, Without;
      StateAt(k);
      active := Without(active, k);
      if lanes[k].dropped {
        RetireLane(k);
        assert States(lanes, repr) == c.lanes[k := None];
        return Disconnected;
      }
      return NothingYet;
    }

    method TakeTarget(ghost c: Core<T>, k: nat) returns (r: TargetResult<T>)
      requires Sound(lanes, repr) && k < |lanes| && lanes[k] != null && k < |paused|
      requires k < |c.lanes| && c.lanes[k].Some? && c.lanes[k].value.view.Refilled().window != []
      requires Value() == c.Put(k, Some(LaneState(c.lanes[k].value.view.Refilled(), 0, c.lanes[k].value.queued)))
      modifies this`active, this`marks, repr
      ensures Sound(lanes, repr) && r == Got(c.lanes[k].value.view.Refilled().window[0])
      ensures var d := AfterTarget(c, k);
        Value() == if paused[k] || c.lanes[k].value.queued then d else AfterQueue(d, k)
    {
      hide Sound, StateOf;
      StateAt(k);
      var value, released := lanes[k].PopTargeted();
      LaneChanged(k);
      StateAt(k);
      assert Value() == AfterTarget(c, k);
      if !paused[k] && !lanes[k].queued {
        QueueAt(k);
      }
      return Got(value);
    }

    method PauseAt(k: nat)
      requires Sound(lanes, repr) && k < |lanes| && lanes[k] != null
      modifies repr
      ensures Sound(lanes, repr)
      ensures var s := old(StateOf(lanes[k])).value;
        States(lanes, repr) ==
        old(States(lanes, repr))[k := Some(LaneState(s.view.(unreleased := 0), 0, false))]
    {
      hide Sound, StateOf;
      StateAt(k);
      lanes[k].queued := false;
      var released := lanes[k].ReleasePending();
      LaneChanged(k);
      StateAt(k);
    }
  }

  lemma ViewLane<T>(c: Core<T>, k: nat)
    requires k < |c.lanes| && c.lanes[k].Some?
    ensures HasLane(c.View(), k) && c.View().lanes[k].value == c.lanes[k].value.view
  {
  }

  lemma EmptyTargetedAs<T>(c: Core<T>, k: nat, marked: bool)
    requires c.Inv() && k < |c.lanes| && c.lanes[k].Some? && c.lanes[k].value.view.Refilled().window == []
    ensures k < |c.paused| && AfterTargetEmpty(c, k).Inv() && HasLane(c.View(), k)
    ensures TargetedAs(Raced(c.View(), k, [], marked), k, AfterTargetEmpty(c, k).View(),
                       if c.lanes[k].value.view.dropped then Disconnected else NothingYet)
  {
    hide Core.Inv, Targeted, Raced;
    SomeInView(c, k);
    ViewLane(c, k);
    NoRace(c, k, [], marked);
    TargetEmptyView(c, k);
    TargetEmptyInv(c, k);
  }

  /** The state a targeted receive with a value to take takes it from. */
  ghost function RacedCore<T>(c: Core<T>, k: nat, late: seq<T>, marked: bool): Core<T>
    requires k < |c.lanes| && c.lanes[k].Some?
  {
    if c.lanes[k].value.view.Refilled().window != [] then c else AfterRace(c, k, late, marked)
  }

  lemma FullTargetedAs<T>(c: Core<T>, k: nat, late: seq<T>, marked: bool)
    requires c.Inv() && k < |c.lanes| && c.lanes[k].Some? && (c.lanes[k].value.view.Refilled().window != [] || late != [])
    ensures k < |c.paused| && HasLane(c.View(), k)
    ensures RacedCore(c, k, late, marked).lanes[k].value.view.Refilled().window != []
    ensures var d := RacedCore(c, k, late, marked);
      var e := if c.paused[k] || c.lanes[k].value.queued then AfterTarget(d, k) else AfterQueue(AfterTarget(d, k), k);
      && e.Inv()
      && TargetedAs(Raced(c.View(), k, late, marked), k, e.View(), Got(d.lanes[k].value.view.Refilled().window[0]))
  {
    hide Core.Inv, Core.View, Targeted, Raced;
    SomeInView(c, k);
    if c.lanes[k].value.view.Refilled().window != [] {
      NoRace(c, k, late, marked);
    } else {
      AfterRaceView(c, k, late, marked);
      AfterRaceInv(c, k, late, marked);
    }
    TargetView(RacedCore(c, k, late, marked), k);
  }

  lemma PausedAgain<T>(c: Core<T>, k: nat)
    requires c.Inv() && k < |c.lanes| && c.lanes[k].Some? && k < |c.paused| && c.paused[k]
    ensures Without(c.active, k) == c.active && c.paused[k := true] == c.paused
  {
    WithoutAbsent(c.active, k);
  }

  lemma CollectedNothing<T>(v: Chan<T>)
    requires v.Valid() && forall k :: k in v.marks ==> |v.lanes| <= k
    ensures Collected(v, true) == v
  {
    CollectGroupsNothing(v, v.cursor, v.Groups(), true);
  }

  lemma NoValues<T>()
    ensures Values<T>([]) == []
  {
  }

  lemma {:induction false} ValuesJoin<T>(x: seq<(nat, T)>, y: seq<(nat, T)>)
    ensures Values(x + y) == Values(x) + Values(y)
    decreases |x|
  {
    if x == [] {
      assert x + y == y;
    } else {
      assert (x + y)[1..] == x[1..] + y;
      ValuesJoin(x[1..], y);
    }
  }

  lemma {:induction false} ValuesLabeled<T>(k: nat, s: seq<T>)
    ensures Values(Labeled(k, s)) == s
    decreases |s|
  {
    if s != [] {
      ValuesLabeled(k, s[1..]);
      assert Labeled(k, s)[1..] == Labeled(k, s[1..]);
    }
  }

  lemma DrainNothing<A, T>(v: Chan<T>, n: nat, admit: (A, T) -> (A, bool), a: A)
    requires v.Valid() && Refreshed(v).active == [] && 0 < n
    ensures Drained(v, n, admit, a) == Drain(Refreshed(v), a, [], false)
  {
  }

  lemma DrainedNone<A, T>(v: Chan<T>, admit: (A, T) -> (A, bool), a: A)
    requires v.Valid()
    ensures Drained(v, 0, admit, a) == Drain(v, a, [], false)
  {
  }

  lemma ReceiveNothing<T>(v: Chan<T>, fair: bool)
    requires v.Valid() && Refreshed(v).active == []
    ensures Received(v, fair) == (Refreshed(v), None)
  {
  }

  lemma RefreshDue<T>(v: Chan<T>)
    requires v.Valid() && v.active != [] && v.budget == 0
    ensures Refreshed(v) == Collected(v, false).(budget := READY_POLL_INTERVAL)
  {
  }

  lemma GroupsStep<T>(c: Chan<T>, next: nat, n: nat, all: bool)
    requires c.Valid() && 0 < n <= c.Groups()
    ensures var g := if next < c.Groups() then next else 0;
      CollectGroups(c, next, n, all) ==
      if all || !GroupMarked(c, g) then CollectGroups(Visited(c, g), g + 1, n - 1, all) else Visited(c, g)
  {
  }

  lemma GroupsDone<T>(c: Chan<T>, next: nat, all: bool)
    requires c.Valid()
    ensures CollectGroups(c, next, 0, all) == c
  {
  }

  lemma VisitedMarked<T>(c: Chan<T>, g: nat)
    requires c.Valid() && g < c.Groups() && GroupMarked(c, g)
    ensures Visited(c, g) == CollectSlots(c, g * GROUP_LANES, GroupEnd(c, g)).(cursor := g + 1)
  {
  }

  lemma VisitedUnmarked<T>(c: Chan<T>, g: nat)
    requires c.Valid() && g < c.Groups() && !GroupMarked(c, g)
    ensures Visited(c, g) == c
  {
  }
}
