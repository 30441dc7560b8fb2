/** The receiver's scheduling rules on values: readiness collection, settling of
    empty lanes, and delivery of one value at a time in bounded bursts. These are
    the reference for the receiver's fast windows and bulk moves. */
module MpscScheduling {
  import opened Basics
  import opened MpscLane

  const READY_POLL_INTERVAL: nat := 64
  const GROUP_LANES: nat := LANES_PER_PAGE * PAGES_PER_GROUP

  /** `marks`: slots with a ready-page entry. `active`: slots in rotation.
      `budget`: values left until the next readiness poll. */
  datatype Chan<T> = Chan(
    lanes: seq<Option<LaneView<T>>>,
    paused: seq<bool>,
    marks: set<nat>,
    active: seq<nat>,
    budget: nat,
    cursor: nat)
  {
    predicate Shape() {
      && |paused| == |lanes|
      && forall k :: 0 <= k < |lanes| && lanes[k].Some? ==> lanes[k].value.Valid()
    }

    predicate Rotation() {
      && (forall i :: 0 <= i < |active| ==> active[i] < |lanes| && lanes[active[i]].Some?)
      && (forall i :: 0 <= i < |active| && active[i] < |paused| ==> !paused[active[i]])
      && (forall i, j :: 0 <= i < j < |active| ==> active[i] != active[j])
    }

    predicate Valid() { Shape() && Rotation() }

    /** Lanes queued or due to be looked at: what settling empty lanes uses up. */
    function Load(): nat { |active| + |marks| }

    function Groups(): nat { (|lanes| + GROUP_LANES - 1) / GROUP_LANES }

    predicate Marked(lo: nat, hi: nat) { exists k :: k in marks && lo <= k < hi }

    function Unread(k: nat): seq<T> {
      if k < |lanes| && lanes[k].Some? then lanes[k].value.Unread() else []
    }

    function Front(): LaneView<T>
      requires Rotation() && active != []
    {
      lanes[active[0]].value
    }

    function WithFront(l: LaneView<T>): Chan<T>
      requires Rotation() && active != []
    {
      this.(lanes := lanes[active[0] := Some(l)])
    }

    /** One ready-page entry is consumed. It queues a lane that is pending, not
        paused and not already queued. */
    function CollectSlot(k: nat): Chan<T>
      requires Shape() && k < |lanes|
    {
      if k !in marks then this
      else if lanes[k].Some? && !paused[k] && lanes[k].value.pending && k !in active then
        this.(marks := marks - {k}, active := active + [k])
      else this.(marks := marks - {k})
    }

    /** Queues a lane that is not paused and not already queued, pending or not. */
    function QueueSlot(k: nat): Chan<T>
      requires Shape() && k < |lanes|
    {
      if lanes[k].Some? && !paused[k] && k !in active then this.(active := active + [k]) else this
    }
  }

  function CollectSlots<T>(c: Chan<T>, lo: nat, hi: nat): (r: Chan<T>)
    requires c.Valid() && lo <= hi <= |c.lanes|
    ensures r.Valid() && r.lanes == c.lanes && r.paused == c.paused && r.budget == c.budget && r.cursor == c.cursor
    ensures c.active <= r.active && r.Load() <= c.Load()
    decreases hi - lo
  {
    if lo == hi then c else CollectSlots(c.CollectSlot(lo), lo + 1, hi)
  }

  function GroupEnd<T>(c: Chan<T>, g: nat): nat { Min((g + 1) * GROUP_LANES, |c.lanes|) }

  predicate GroupMarked<T>(c: Chan<T>, g: nat) { c.Marked(g * GROUP_LANES, GroupEnd(c, g)) }

  /** Consumes the entries of one group, if it has any, and moves the cursor past it. */
  function Visited<T>(c: Chan<T>, g: nat): (r: Chan<T>)
    requires c.Valid() && g < c.Groups()
    ensures r.Valid() && r.lanes == c.lanes && r.paused == c.paused && r.budget == c.budget
    ensures c.active <= r.active && r.Load() <= c.Load()
  {
    if GroupMarked(c, g) then CollectSlots(c, g * GROUP_LANES, GroupEnd(c, g)).(cursor := g + 1) else c
  }

  /** Visits `n` groups in cyclic order from `next`; without `all`, stops after the
      first one that had entries. */
  function CollectGroups<T>(c: Chan<T>, next: nat, n: nat, all: bool): (r: Chan<T>)
    requires c.Valid() && (n > 0 ==> 0 < c.Groups())
    ensures r.Valid() && r.lanes == c.lanes && r.paused == c.paused && r.budget == c.budget
    ensures c.active <= r.active && r.Load() <= c.Load()
    decreases n
  {
    if n == 0 then c
    else
      var g := if next < c.Groups() then next else 0;
      if all || !GroupMarked(c, g) then CollectGroups(Visited(c, g), g + 1, n - 1, all) else Visited(c, g)
  }

  function Collected<T>(c: Chan<T>, all: bool): (r: Chan<T>)
    requires c.Valid()
    ensures r.Valid() && r.lanes == c.lanes && r.paused == c.paused && r.budget == c.budget
    ensures c.active <= r.active && r.Load() <= c.Load()
  {
    CollectGroups(c, c.cursor, c.Groups(), all)
  }

  /** A receive refreshes an empty rotation completely, and a non-empty one by a
      single group once the poll budget is used up. */
  function Refreshed<T>(c: Chan<T>): (r: Chan<T>)
    requires c.Valid()
    ensures r.Valid() && r.lanes == c.lanes
    ensures c.active <= r.active && r.Load() <= c.Load()
  {
    if c.active == [] then Collected(c, true)
    else if c.budget == 0 then Collected(c, false).(budget := READY_POLL_INTERVAL)
    else c
  }

  /** The front lane's ring came back empty: it leaves the rotation, and the
      receiver too once its sender is gone. */
  function FrontSettled<T>(c: Chan<T>): (r: Chan<T>)
    requires c.Valid() && c.active != []
    ensures r.Valid() && r.Load() < c.Load()
  {
    var k, l := c.active[0], c.Front().Refilled().Settled();
    c.(lanes := c.lanes[k := if l.dropped then None else Some(l)], active := c.active[1..])
  }

  /** Refreshes the rotation and settles empty lanes until the front lane has a
      prefetched value or no lane is left. */
  function Prepared<T>(c: Chan<T>): (r: Chan<T>)
    requires c.Valid()
    ensures r.Valid() && (r.active != [] ==> r.Front().window != [])
    decreases c.Load()
  {
    var r := Refreshed(c);
    if r.active == [] then r
    else if r.Front().Refilled().window != [] then r.WithFront(r.Front().Refilled())
    else Prepared(FrontSettled(r))
  }

  /** `usize` subtraction of one. */
  function Spent(budget: nat): nat { if budget == 0 then USIZE_MAX else budget - 1 }

  predicate Deliverable<T>(c: Chan<T>) { c.Valid() && c.active != [] && c.Front().window != [] }

  /** The front lane gives up its first value and rotates when its burst ends. */
  function Delivered<T>(c: Chan<T>, fair: bool): (r: Chan<T>)
    requires Deliverable(c)
    ensures r.Valid() && r.active != []
  {
    var k := c.active[0];
    c.(lanes := c.lanes[k := Some(c.Front().Taken(fair))],
       active := if c.Front().Rotates(fair) then c.active[1..] + [k] else c.active,
       budget := Spent(c.budget))
  }

  /** One receive: the state it leaves, and the slot and value it returns. */
  function Received<T>(c: Chan<T>, fair: bool): (r: (Chan<T>, Option<(nat, T)>))
    requires c.Valid()
    ensures r.0.Valid()
  {
    var p := Prepared(c);
    if p.active == [] then (p, None)
    else (Delivered(p, fair), Some((p.active[0], p.Front().window[0])))
  }

  /** A fair receive looks at every ready page first and never continues a burst. */
  function ReceivedFair<T>(c: Chan<T>): (r: (Chan<T>, Option<(nat, T)>))
    requires c.Valid()
    ensures r.0.Valid()
  {
    Received(Collected(c, true).(budget := READY_POLL_INTERVAL), true)
  }

  /** As `Prepared`, polling once more if the rotation was rebuilt on a used-up
      budget. */
  function Ready<T>(c: Chan<T>): (r: Chan<T>)
    requires c.Valid()
    ensures r.Valid() && (r.active != [] ==> r.Front().window != [])
  {
    var p := Prepared(c);
    if p.active != [] && p.budget == 0 then Prepared(p) else p
  }

  datatype Drain<A, T> = Drain(chan: Chan<T>, state: A, out: seq<(nat, T)>, rejected: bool)

  /** The reference for bulk receives: single receives, each offered to the
      admission test first, until the limit, the end of the values, or a
      rejection. */
  function Drained<A, T>(c: Chan<T>, limit: nat, admit: (A, T) -> (A, bool), a: A): (r: Drain<A, T>)
    requires c.Valid()
    ensures r.chan.Valid() && |r.out| <= limit
    decreases limit
  {
    if limit == 0 then Drain(c, a, [], false)
    else
      var p := Ready(c);
      if p.active == [] then Drain(p, a, [], false)
      else
        var slot, value := p.active[0], p.Front().window[0];
        var (next, ok) := admit(a, value);
        if !ok then Drain(p, next, [], true)
        else
          var rest := Drained(Delivered(p, false), limit - 1, admit, next);
          rest.(out := [(slot, value)] + rest.out)
  }

  /** `n` plain receives in a row, stopping when one finds nothing. */
  function ReceivedTimes<T>(c: Chan<T>, n: nat): (r: (Chan<T>, seq<(nat, T)>))
    requires c.Valid()
    ensures r.0.Valid() && |r.1| <= n
    decreases n
  {
    if n == 0 then (c, [])
    else
      var (d, v) := Received(c, false);
      if v.None? then (d, [])
      else var (e, out) := ReceivedTimes(d, n - 1); (e, [v.value] + out)
  }

  function Without(s: seq<nat>, k: nat): (r: seq<nat>)
    ensures forall x :: x in r <==> x in s && x != k
    ensures |r| <= |s|
  {
    if s == [] then [] else (if s[0] == k then [] else [s[0]]) + Without(s[1..], k)
  }

  /** Pausing a lane releases its consumed slots and takes it out of the rotation. */
  function Paused<T>(c: Chan<T>, k: nat): (r: Chan<T>)
    requires c.Valid() && k < |c.lanes| && c.lanes[k].Some?
  {
    c.(lanes := c.lanes[k := Some(c.lanes[k].value.(unreleased := 0))],
       paused := c.paused[k := true],
       active := Without(c.active, k))
  }

  /** The lane's signal is swapped to pending; the swap that finds it idle also makes
      the ready-page entry. */
  function Signaled<T>(c: Chan<T>, k: nat): Chan<T>
    requires k < |c.lanes| && c.lanes[k].Some?
  {
    var l := c.lanes[k].value;
    c.(lanes := c.lanes[k := Some(l.(pending := true))], marks := if l.pending then c.marks else c.marks + {k})
  }

  /** Resuming a paused lane marks it and puts it at the end of the rotation. */
  function Resumed<T>(c: Chan<T>, k: nat): Chan<T>
    requires c.Valid() && k < |c.lanes| && c.lanes[k].Some?
  {
    if !c.paused[k] then c
    else Signaled(c, k).(paused := c.paused[k := false], active := c.active + [k])
  }

  /** A receive from one chosen lane, paused or not. It leaves the burst alone, and
      puts a lane with values that was neither queued nor paused into the rotation. */
  function Targeted<T>(c: Chan<T>, k: nat): (Chan<T>, Option<T>)
    requires c.Valid() && k < |c.lanes| && c.lanes[k].Some?
  {
    var l := c.lanes[k].value.Refilled();
    if l.window == [] then
      (c.(lanes := c.lanes[k := if l.dropped then None else Some(l.Settled())],
          paused := if l.dropped then c.paused[k := false] else c.paused,
          active := Without(c.active, k)), None)
    else
      var d := c.(lanes := c.lanes[k := Some(l.Taken(false).(burst := l.burst))]);
      (if c.paused[k] || k in c.active then d else Signaled(d, k).(active := c.active + [k]), Some(l.window[0]))
  }

  /** An unsignaled send on a lane: the value is visible and nothing points to it. */
  function Pushed<T>(c: Chan<T>, k: nat, value: T): Chan<T>
    requires k < |c.lanes| && c.lanes[k].Some?
  {
    var l := c.lanes[k].value;
    c.(lanes := c.lanes[k := Some(l.(beyond := l.beyond + [value]))])
  }

  /** A signaled send on a lane. */
  function Published<T>(c: Chan<T>, k: nat, value: T): Chan<T>
    requires k < |c.lanes| && c.lanes[k].Some?
  {
    Signaled(Pushed(c, k, value), k)
  }

  function QueueSlots<T>(c: Chan<T>, lo: nat): (r: Chan<T>)
    requires c.Valid() && lo <= |c.lanes|
    ensures r.Valid() && r == c.(active := r.active) && c.active <= r.active
    decreases |c.lanes| - lo
  {
    if lo == |c.lanes| then c else QueueSlots(c.QueueSlot(lo), lo + 1)
  }

  /** Polling all lanes queues, in slot order, every lane that is not paused and not
      already queued. */
  function AllPolled<T>(c: Chan<T>): (r: Chan<T>)
    requires c.Valid()
    ensures r.Valid() && r == c.(active := r.active) && c.active <= r.active
  {
    QueueSlots(c, 0)
  }

  /** Between a lane's last look at its empty ring and its recheck, a sender published
      `late`: the lane is claimed back. `marked`: the send made a ready-page entry
      before that. */
  function Raced<T>(c: Chan<T>, k: nat, late: seq<T>, marked: bool): Chan<T>
    requires k < |c.lanes| && c.lanes[k].Some?
  {
    var l := c.lanes[k].value;
    if l.Unread() != [] || late == [] then c
    else
      c.(lanes := c.lanes[k := Some(l.Claimed(late))], marks := if marked then c.marks + {k} else c.marks)
  }
}
