/** One sender lane as the MPSC receiver keeps it: a prefetched window, batched
    slot release, a burst counter, and the fast window that charges several
    values to the counters at once.

    `LaneView` is the lane with an open fast window refunded. Every method is
    specified by its effect on that view, whose rules handle one value at a
    time: release at the release batch, rotation at the burst limit. */
module MpscLane {
  import opened Basics

  const MIN_RELEASE_BATCH: nat := 64

  /** The lane's state with no fast window open. `window` holds the prefetched
      values, `beyond` those published after the last prefetch. */
  datatype LaneView<T> = LaneView(
    window: seq<T>,
    beyond: seq<T>,
    unreleased: nat,
    burst: nat,
    batch: nat,
    pending: bool,
    dropped: bool)
  {
    predicate Valid() { unreleased < batch && burst < PREFETCH_LIMIT }

    function Unread(): seq<T> { window + beyond }

    /** Prefetch once the window is used up. */
    function Refilled(): LaneView<T> {
      if window == [] then this.(window := beyond, beyond := []) else this
    }

    predicate Rotates(fair: bool) { fair || burst + 1 == PREFETCH_LIMIT }

    predicate Releases() { unreleased + 1 == batch }

    /** One value leaves the window, with full bookkeeping. */
    function Taken(fair: bool): LaneView<T>
      requires window != []
    {
      this.(window := window[1..],
            unreleased := if Releases() then 0 else unreleased + 1,
            burst := if Rotates(fair) then 0 else burst + 1)
    }

    /** The ring came back empty: credits are released and the lane goes idle. */
    function Settled(): LaneView<T> {
      this.(unreleased := 0, burst := 0, pending := false)
    }

    /** The recheck after going idle found what a racing send had published. */
    function Claimed(late: seq<T>): LaneView<T> {
      Settled().(window := late, pending := true)
    }

    /** `n` values taken one after another by ordinary receives. */
    function TakenTimes(n: nat): LaneView<T>
      requires n <= |window|
      decreases n
    {
      if n == 0 then this else Taken(false).TakenTimes(n - 1)
    }
  }

  /** Short of both limits, several takes only move the counters. */
  lemma {:induction false} TakenTimesShort<T>(l: LaneView<T>, n: nat)
    requires n <= |l.window| && l.unreleased + n < l.batch && l.burst + n < PREFETCH_LIMIT
    ensures l.TakenTimes(n) == l.(window := l.window[n..], unreleased := l.unreleased + n, burst := l.burst + n)
    decreases n
  {
    if n > 0 {
      TakenTimesShort(l.Taken(false), n - 1);
      assert l.window[1..][n - 1..] == l.window[n..];
    }
  }

  lemma {:induction false} TakenTimesSplit<T>(l: LaneView<T>, a: nat, b: nat)
    requires a + b <= |l.window|
    ensures |l.TakenTimes(a).window| == |l.window| - a
    ensures l.TakenTimes(a + b) == l.TakenTimes(a).TakenTimes(b)
    decreases a
  {
    if a > 0 {
      TakenTimesSplit(l.Taken(false), a - 1, b);
    }
  }

  /** A whole chunk up to the nearer limit has the effect of that many single
      receives: only its last value can release or rotate. */
  lemma TakenTimesChunk<T>(l: LaneView<T>, n: nat)
    requires 0 < n <= |l.window| && l.unreleased + n <= l.batch && l.burst + n <= PREFETCH_LIMIT
    ensures l.TakenTimes(n) == l.(window := l.window[n..],
                                  unreleased := if l.unreleased + n == l.batch then 0 else l.unreleased + n,
                                  burst := if l.burst + n == PREFETCH_LIMIT then 0 else l.burst + n)
  {
    TakenTimesShort(l, n - 1);
    TakenTimesSplit(l, n - 1, 1);
    var m := l.TakenTimes(n - 1);
    assert m.TakenTimes(1) == m.Taken(false).TakenTimes(0) == m.Taken(false);
    assert l.window[n - 1..][1..] == l.window[n..];
  }

  /** How a lane settled when its ring looked empty: kept, because a racing send
      published meanwhile, or idle. */
  datatype EmptyLane = Keep(released: bool) | Idle(disconnected: bool, released: bool)

  datatype Poll<T> = Item(value: T, rotate: bool, released: bool) | Empty(lane: EmptyLane)

  class Lane<T> {
    const key: LaneKey
    // the ring consumer's view
    var window: seq<T>
    var beyond: seq<T>
    // bookkeeping
    var cachedAvailable: nat
    var unreleased: nat
    const releaseBatch: nat
    var burst: nat
    var fastLeft: nat
    var queued: bool
    // lane signal and sender
    var pending: bool
    var dropped: bool

    ghost predicate Valid()
      reads this
    {
      && cachedAvailable + fastLeft == |window|
      && fastLeft <= unreleased < releaseBatch
      && fastLeft <= burst < PREFETCH_LIMIT
    }

    ghost function View(): (l: LaneView<T>)
      requires Valid()
      reads this
      ensures l.Valid() && fastLeft <= |l.window|
    {
      LaneView(window, beyond, unreleased - fastLeft, burst - fastLeft, releaseBatch, pending, dropped)
    }

    constructor (key: LaneKey, capacity: nat)
      requires 0 < capacity
      ensures this.key == key && Valid() && fastLeft == 0 && !queued
      ensures View() == LaneView([], [], 0, 0, releaseBatch, false, false)
      ensures 0 < releaseBatch <= capacity <= 2 * releaseBatch
      ensures MIN_RELEASE_BATCH <= releaseBatch || releaseBatch == capacity
    {
      this.key := key;
      window, beyond := [], [];
      cachedAvailable, unreleased, burst, fastLeft := 0, 0, 0, 0;
      releaseBatch := Min(Max((capacity + 1) / 2, MIN_RELEASE_BATCH), capacity);
      queued, pending, dropped := false, false, false;
    }

    /** The consumer's prefetch: returns how many values are newly visible. */
    method Prefetch() returns (count: nat)
      modifies this`window, this`beyond
      ensures count == old(|beyond|) && window == old(window) + old(beyond) && beyond == []
    {
      count := |beyond|;
      window, beyond := window + beyond, [];
    }

    /** Refunds the unpopped part of the fast window. */
    method CloseFast()
      requires Valid()
      modifies this`cachedAvailable, this`unreleased, this`burst, this`fastLeft
      ensures Valid() && fastLeft == 0 && View() == old(View())
    {
      if fastLeft != 0 {
        cachedAvailable := cachedAvailable + fastLeft;
        unreleased := unreleased - fastLeft;
        burst := burst - fastLeft;
        fastLeft := 0;
      }
    }

    /** Opens a fast window: prefetched values, one short of the release batch and
        of the burst limit, and within the poll budget. */
    method GrantFast(pollBudget: nat)
      requires Valid()
      modifies this`window, this`beyond, this`cachedAvailable, this`unreleased, this`burst, this`fastLeft
      ensures Valid() && View() == old(View()).Refilled()
      ensures fastLeft == Min(Min(|window|, releaseBatch - 1 - View().unreleased),
                              Min(PREFETCH_LIMIT - 1 - View().burst, pollBudget))
    {
      CloseFast();
      if cachedAvailable == 0 {
        cachedAvailable := Prefetch();
      }
      var granted := Min(Min(cachedAvailable, releaseBatch - (unreleased + 1)),
                         Min(PREFETCH_LIMIT - (burst + 1), pollBudget));
      cachedAvailable := cachedAvailable - granted;
      unreleased := unreleased + granted;
      burst := burst + granted;
      fastLeft := granted;
    }

    /** Pops from the open window. The value is one an ordinary receive would take
        without releasing or rotating. */
    method PopFast() returns (r: Option<T>)
      requires Valid()
      modifies this`window, this`fastLeft
      ensures Valid()
      ensures r.None? <==> old(fastLeft) == 0
      ensures r.None? ==> View() == old(View()) && fastLeft == 0
      ensures r.Some? ==> fastLeft == old(fastLeft) - 1
      ensures r.Some? ==> var l := old(View());
        && r.value == l.window[0] && View() == l.Taken(false)
        && !l.Releases() && !l.Rotates(false)
    {
      if fastLeft == 0 {
        return None;
      }
      fastLeft := fastLeft - 1;
      r := Some(window[0]);
      window := window[1..];
    }

    /** Publishes consumed slots. Returns whether there were any. */
    method ReleasePending() returns (released: bool)
      requires Valid()
      modifies this`cachedAvailable, this`unreleased, this`burst, this`fastLeft
      ensures Valid() && fastLeft == 0
      ensures released == (old(View()).unreleased != 0) && View() == old(View()).(unreleased := 0)
    {
      CloseFast();
      if unreleased == 0 {
        return false;
      }
      unreleased := 0;
      return true;
    }

    /** Marks the lane idle and rechecks its ring. `late` is what a racing send
        publishes in between: with any, the lane is claimed back and stays queued. */
    method SettleEmpty(late: seq<T>) returns (r: EmptyLane)
      requires Valid() && fastLeft == 0 && window == [] && beyond == []
      modifies this
      ensures Valid() && fastLeft == 0
      ensures var l := old(View());
        if late == [] then
          View() == l.Settled() && r == Idle(l.dropped, l.unreleased != 0) && !queued
        else
          View() == l.Claimed(late) && r == Keep(l.unreleased != 0) && queued == old(queued)
    {
      var released := ReleasePending();
      pending := false;
      beyond := late;
      cachedAvailable := Prefetch();
      burst := 0;
      if cachedAvailable != 0 {
        pending := true;
        return Keep(released);
      }
      queued := false;
      return Idle(dropped, released);
    }

    /** Prefetches once the cached window is used up. Returns how the lane settled
        when its ring is empty. */
    method Refill(late: seq<T>) returns (r: Option<EmptyLane>)
      requires Valid()
      modifies this
      ensures Valid() && fastLeft == 0
      ensures var l := old(View()).Refilled();
        if l.window != [] then r == None && View() == l && queued == old(queued)
        else if late == [] then
          r == Some(Idle(l.dropped, l.unreleased != 0)) && View() == l.Settled() && !queued
        else
          r == Some(Keep(l.unreleased != 0)) && View() == l.Claimed(late) && queued == old(queued)
    {
      CloseFast();
      if cachedAvailable == 0 {
        cachedAvailable := Prefetch();
        if cachedAvailable == 0 {
          var empty := SettleEmpty(late);
          return Some(empty);
        }
      }
      return None;
    }

    /** Pops one value with full bookkeeping, or settles the lane. */
    method PollOne(fair: bool, late: seq<T>) returns (r: Poll<T>)
      requires Valid()
      modifies this
      ensures Valid() && fastLeft == 0
      ensures var l := old(View()).Refilled();
        if l.window != [] then
          View() == l.Taken(fair) && r == Item(l.window[0], l.Rotates(fair), l.Releases()) && queued == old(queued)
        else if late == [] then
          View() == l.Settled() && r == Empty(Idle(l.dropped, l.unreleased != 0)) && !queued
        else
          View() == l.Claimed(late) && r == Empty(Keep(l.unreleased != 0)) && queued == old(queued)
    {
      var empty := Refill(late);
      if empty.Some? {
        return Empty(empty.value);
      }
      var value := window[0];
      window := window[1..];
      cachedAvailable := cachedAvailable - 1;
      var full := unreleased + 1 == releaseBatch;
      unreleased := if full then 0 else unreleased + 1;
      var rotate := fair || burst + 1 == PREFETCH_LIMIT;
      burst := if rotate then 0 else burst + 1;
      return Item(value, rotate, full);
    }

    /** A fair receive from the only active lane, through its fast window. When it
        declines, ending the burst early is not observable to a fair receive. */
    method PopFair(pollBudget: nat) returns (r: Option<T>)
      requires Valid() && fastLeft <= pollBudget
      modifies this`window, this`beyond, this`cachedAvailable, this`unreleased, this`burst, this`fastLeft
      ensures Valid()
      ensures r.None? ==> fastLeft == 0 && View() == old(View()).Refilled().(burst := 0)
      ensures r.Some? ==> var l := old(View()).Refilled();
        && fastLeft < pollBudget && l.window != [] && r.value == l.window[0]
        && View() == l.Taken(true) && !l.Releases()
    {
      if fastLeft == 0 {
        burst := 0;
        GrantFast(pollBudget);
      }
      r := PopFast();
      if r.Some? {
        burst := fastLeft;
      }
    }

    /** Most values one bulk move may take before slot release or rotation. */
    function ChunkLimit(): (n: nat)
      requires Valid() && fastLeft == 0
      reads this
      ensures n <= |window| && (window != [] ==> 0 < n)
      ensures View().unreleased + n <= releaseBatch && View().burst + n <= PREFETCH_LIMIT
    {
      Min(cachedAvailable, Min(PREFETCH_LIMIT - burst, releaseBatch - unreleased))
    }

    /** Moves prefetched values up to `take`, stopping at the first one the
        admission test rejects, and ends a burst that reached the limit. */
    method MoveChunk<A>(take: nat, admit: (A, T) -> (A, bool), a: A)
      returns (moved: seq<T>, last: A, rotate: bool)
      requires Valid() && fastLeft == 0 && take <= ChunkLimit()
      modifies this`window, this`cachedAvailable, this`unreleased, this`burst
      ensures Valid() && fastLeft == 0
      ensures (|moved|, last) == Accepted(old(window)[..take], admit, a)
      ensures moved == old(window)[..|moved|]
      ensures View() == old(View()).TakenTimes(|moved|)
      ensures rotate == (old(View()).burst + |moved| == PREFETCH_LIMIT)
    {
      var n: nat;
      var (count, state) := Accepted(window[..take], admit, a);
      n, last := count, state;
      if n > 0 {
        TakenTimesChunk(View(), n);
      }
      moved := window[..n];
      window := window[n..];
      cachedAvailable := cachedAvailable - n;
      unreleased := if unreleased + n == releaseBatch then 0 else unreleased + n;
      rotate := burst + n == PREFETCH_LIMIT;
      burst := if rotate then 0 else burst + n;
    }

    /** Pops a value after a refill found one, leaving the burst alone. */
    method PopTargeted() returns (value: T, released: bool)
      requires Valid() && fastLeft == 0 && window != []
      modifies this`window, this`cachedAvailable, this`unreleased
      ensures Valid() && fastLeft == 0
      ensures var l := old(View());
        value == l.window[0] && released == l.Releases() && View() == l.Taken(false).(burst := l.burst)
    {
      value := window[0];
      window := window[1..];
      cachedAvailable := cachedAvailable - 1;
      released := unreleased + 1 == releaseBatch;
      unreleased := if released then 0 else unreleased + 1;
    }
  }
}
