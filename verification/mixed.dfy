/** Any mix of operations on one receiver: plain, fair, bulk and targeted receives,
    polling all lanes, pausing and resuming, with signaled and unsignaled sends in
    between. Per-lane order, the bound on waiting and the soundness of the poll budget
    hold over every sequence of them. */
module MpscMixed {
  import opened Basics
  import opened MpscLane
  import opened MpscScheduling
  import opened MpscSchedulingTheorems

  // The rules keep the channel valid

  predicate NoRepeats(s: seq<nat>) { forall i, j :: 0 <= i < j < |s| ==> s[i] != s[j] }

  lemma {:induction false} WithoutDistinct(s: seq<nat>, k: nat)
    requires NoRepeats(s)
    ensures NoRepeats(Without(s, k))
    decreases |s|
  {
    if s != [] {
      WithoutDistinct(s[1..], k);
      var t := Without(s[1..], k);
      forall i | 0 <= i < |t| ensures t[i] != s[0] {
        assert t[i] in t && t[i] in s[1..];
      }
    }
  }

  lemma WithoutFirst(s: seq<nat>, k: nat)
    requires s != [] && s[0] != k
    ensures Without(s, k) != [] && Without(s, k)[0] == s[0]
  {
  }

  lemma PausedValid<T>(c: Chan<T>, k: nat)
    requires c.Valid() && k < |c.lanes| && c.lanes[k].Some?
    ensures Paused(c, k).Valid()
  {
    WithoutDistinct(c.active, k);
    var p, r := Paused(c, k), Without(c.active, k);
    assert p.active == r;
    forall i | 0 <= i < |p.active|
      ensures p.active[i] < |p.lanes| && p.lanes[p.active[i]].Some? && !p.paused[p.active[i]]
    {
      assert r[i] in r && r[i] in c.active;
      var j :| 0 <= j < |c.active| && c.active[j] == r[i];
    }
  }

  lemma {:induction false} WithoutAbsent(s: seq<nat>, k: nat)
    requires k !in s
    ensures Without(s, k) == s
    decreases |s|
  {
    if s != [] {
      WithoutAbsent(s[1..], k);
    }
  }

  lemma SignaledValid<T>(c: Chan<T>, k: nat)
    requires c.Valid() && k < |c.lanes| && c.lanes[k].Some?
    ensures Signaled(c, k).Valid()
  {
  }

  lemma QueuedValid<T>(c: Chan<T>, k: nat)
    requires c.Valid() && k < |c.lanes| && c.lanes[k].Some? && !c.paused[k] && k !in c.active
    ensures c.(active := c.active + [k]).Valid()
  {
  }

  lemma LaneReplaced<T>(c: Chan<T>, k: nat, l: LaneView<T>)
    requires c.Valid() && k < |c.lanes| && c.lanes[k].Some? && l.Valid()
    ensures c.(lanes := c.lanes[k := Some(l)]).Valid()
  {
  }

  lemma PublishedValid<T>(c: Chan<T>, k: nat, value: T)
    requires c.Valid() && k < |c.lanes| && c.lanes[k].Some?
    ensures Pushed(c, k, value).Valid() && Published(c, k, value).Valid()
  {
    hide Chan.Valid, Signaled;
    ValidLane(c, k);
    var l := c.lanes[k].value;
    LaneReplaced(c, k, l.(beyond := l.beyond + [value]));
    SignaledValid(Pushed(c, k, value), k);
  }

  lemma RacedValid<T>(c: Chan<T>, k: nat, late: seq<T>, marked: bool)
    requires c.Valid() && k < |c.lanes| && c.lanes[k].Some?
    ensures Raced(c, k, late, marked).Valid() && HasLane(Raced(c, k, late, marked), k)
  {
    ValidLane(c, k);
    LaneReplaced(c, k, c.lanes[k].value.Claimed(late));
  }

  lemma ValidLane<T>(c: Chan<T>, k: nat)
    requires c.Valid() && k < |c.lanes| && c.lanes[k].Some?
    ensures c.lanes[k].value.Valid() && |c.paused| == |c.lanes|
    ensures c.paused[k] ==> k !in c.active
  {
  }

  lemma ResumedValid<T>(c: Chan<T>, k: nat)
    requires c.Valid() && k < |c.lanes| && c.lanes[k].Some?
    ensures Resumed(c, k).Valid()
  {
    ValidLane(c, k);
    SignaledValid(c, k);
    var d := Signaled(c, k);
    if c.paused[k] {
      UnpausedValid(d, k);
      QueuedValid(d.(paused := d.paused[k := false]), k);
    }
    hide Chan.Valid;
  }

  lemma UnpausedValid<T>(c: Chan<T>, k: nat)
    requires c.Valid() && k < |c.paused|
    ensures c.(paused := c.paused[k := false]).Valid()
  {
  }

  lemma SettledValid<T>(c: Chan<T>, k: nat, l: LaneView<T>)
    requires c.Valid() && k < |c.lanes| && l.Valid()
    ensures c.(lanes := c.lanes[k := if l.dropped then None else Some(l)], active := Without(c.active, k)).Valid()
  {
    WithoutDistinct(c.active, k);
    var r := Without(c.active, k);
    forall i | 0 <= i < |r|
      ensures r[i] != k && r[i] < |c.lanes| && c.lanes[r[i]].Some? && !c.paused[r[i]]
    {
      assert r[i] in r && r[i] in c.active;
      var j :| 0 <= j < |c.active| && c.active[j] == r[i];
    }
  }

  lemma TargetedValid<T>(c: Chan<T>, k: nat)
    requires c.Valid() && k < |c.lanes| && c.lanes[k].Some?
    ensures Targeted(c, k).0.Valid()
  {
    ValidLane(c, k);
    var l := c.lanes[k].value.Refilled();
    if l.window == [] {
      SettledValid(c, k, l.Settled());
      var d := c.(lanes := c.lanes[k := if l.dropped then None else Some(l.Settled())], active := Without(c.active, k));
      UnpausedValid(d, k);
    } else {
      var taken := l.Taken(false).(burst := l.burst);
      LaneReplaced(c, k, taken);
      var d := c.(lanes := c.lanes[k := Some(taken)]);
      SignaledValid(d, k);
      if !c.paused[k] && k !in c.active {
        QueuedValid(Signaled(d, k), k);
      }
    }
    hide Chan.Valid;
  }

  // Operations

  /** `Bulk` carries its admission test and the test's state; a scan is `PollAll`
      followed by `Bulk`. `Target` carries what a racing send publishes, and whether it
      marks the lane, while the lane settles. `Push` is an unsignaled send. An operation
      on a slot without a lane is an error that changes nothing. */
  datatype Op<!A, !T> =
    | Plain
    | Fair
    | Bulk(limit: nat, admit: (A, T) -> (A, bool), state: A)
    | PollAll
    | Target(slot: nat, late: seq<T>, marked: bool)
    | Pause(slot: nat)
    | Resume(slot: nat)
    | Send(slot: nat, value: T)
    | Push(slot: nat, value: T)

  /** The state an operation leaves, what it received and what it sent, each value
      with its slot. */
  datatype Outcome<T> = Outcome(chan: Chan<T>, out: seq<(nat, T)>, sent: seq<(nat, T)>)

  predicate HasLane<T>(c: Chan<T>, k: nat) { k < |c.lanes| && c.lanes[k].Some? }

  /** A sender that can still send. */
  predicate Open<T>(c: Chan<T>, k: nat) { HasLane(c, k) && !c.lanes[k].value.dropped }

  /** A racing send only changes a lane that has run empty, and needs a sender. */
  predicate Races<T>(c: Chan<T>, k: nat) { Open(c, k) && c.Unread(k) == [] }

  function One<T>(v: Option<(nat, T)>): seq<(nat, T)> { if v.Some? then [v.value] else [] }

  function Applied<A, T>(c: Chan<T>, op: Op<A, T>): (r: Outcome<T>)
    requires c.Valid()
  {
    match op
    case Plain => var (d, v) := Received(c, false); Outcome(d, One(v), [])
    case Fair => var (d, v) := ReceivedFair(c); Outcome(d, One(v), [])
    case Bulk(limit, admit, a) => var d := Drained(c, limit, admit, a); Outcome(d.chan, d.out, [])
    case PollAll => Outcome(AllPolled(c), [], [])
    case Target(k, late, marked) =>
      if !HasLane(c, k) then Outcome(c, [], [])
      else
        var raced := if Races(c, k) then late else [];
        RacedValid(c, k, raced, marked);
        var (d, v) := Targeted(Raced(c, k, raced, marked), k);
        Outcome(d, if v.Some? then [(k, v.value)] else [], Labeled(k, raced))
    case Pause(k) => Outcome(if HasLane(c, k) then Paused(c, k) else c, [], [])
    case Resume(k) => Outcome(if HasLane(c, k) then Resumed(c, k) else c, [], [])
    case Send(k, value) =>
      if Open(c, k) then Outcome(Published(c, k, value), [], [(k, value)]) else Outcome(c, [], [])
    case Push(k, value) =>
      if Open(c, k) then Outcome(Pushed(c, k, value), [], [(k, value)]) else Outcome(c, [], [])
  }

  lemma AppliedValid<A, T>(c: Chan<T>, op: Op<A, T>)
    requires c.Valid()
    ensures Applied(c, op).chan.Valid()
  {
    hide Chan.Valid, Targeted, Raced, Labeled;
    match op
    case Target(k, late, marked) =>
      if HasLane(c, k) {
        var raced := if Races(c, k) then late else [];
        RacedValid(c, k, raced, marked);
        TargetedValid(Raced(c, k, raced, marked), k);
      }
    case Pause(k) => if HasLane(c, k) { PausedValid(c, k); }
    case Resume(k) => if HasLane(c, k) { ResumedValid(c, k); }
    case Send(k, value) => if HasLane(c, k) { PublishedValid(c, k, value); }
    case Push(k, value) => if HasLane(c, k) { PublishedValid(c, k, value); }
    case _ =>
  }

  function AppliedAll<A, T>(c: Chan<T>, ops: seq<Op<A, T>>): (r: Outcome<T>)
    requires c.Valid()
    ensures r.chan.Valid()
    decreases |ops|
  {
    if ops == [] then Outcome(c, [], [])
    else
      var first := Applied(c, ops[0]);
      AppliedValid(c, ops[0]);
      var rest := AppliedAll(first.chan, ops[1..]);
      Outcome(rest.chan, first.out + rest.out, first.sent + rest.sent)
  }

  // Per-lane order

  lemma FromParts<T>(a: seq<T>, b: seq<T>, c: seq<T>)
    ensures a + (b + c) == a + b + c
  {
  }

  lemma {:induction false} FromJoin<T>(x: seq<(nat, T)>, y: seq<(nat, T)>, k: nat)
    ensures From(x + y, k) == From(x, k) + From(y, k)
    decreases |x|
  {
    if x == [] {
      assert x + y == y;
    } else {
      assert x + y == [x[0]] + (x[1..] + y);
      assert x == [x[0]] + x[1..];
      FromFirst(x[0], x[1..] + y, k);
      FromFirst(x[0], x[1..], k);
      FromJoin(x[1..], y, k);
      FromParts(if x[0].0 == k then [x[0].1] else [], From(x[1..], k), From(y, k));
    }
    hide From;
  }

  lemma ReadyKeepsUnread<T>(c: Chan<T>, k: nat)
    requires c.Valid()
    ensures Ready(c).Unread(k) == c.Unread(k)
  {
    hide Prepared, Chan.Unread;
    PreparedKeepsUnread(c, k);
    PreparedKeepsUnread(Prepared(c), k);
  }

  /** A bulk receive, whatever its admission test does, takes values of each lane in
      order and leaves the rest. */
  lemma {:induction false} DrainIsFifo<A, T>(c: Chan<T>, limit: nat, admit: (A, T) -> (A, bool), a: A, k: nat)
    requires c.Valid()
    ensures var d := Drained(c, limit, admit, a); From(d.out, k) + d.chan.Unread(k) == c.Unread(k)
    decreases limit
  {
    hide Ready, Delivered, Chan.Unread, Chan.Valid;
    if limit > 0 {
      var p := Ready(c);
      ReadyKeepsUnread(c, k);
      if p.active != [] {
        ReadyIsDeliverable(c);
        var value := p.Front().window[0];
        var (next, ok) := admit(a, value);
        if ok {
          DeliveredTakesOldest(p, false, k);
          DrainIsFifo(Delivered(p, false), limit - 1, admit, next, k);
          FromFirst((p.active[0], value), Drained(Delivered(p, false), limit - 1, admit, next).out, k);
        }
      }
    }
  }

  lemma ReadyIsDeliverable<T>(c: Chan<T>)
    requires c.Valid() && Ready(c).active != []
    ensures Deliverable(Ready(c)) && Ready(c).Rotation()
  {
    hide Prepared;
  }

  lemma FromOne<T>(x: (nat, T), k: nat)
    ensures From([x], k) == if x.0 == k then [x.1] else []
  {
    assert [x][1..] == [];
  }

  lemma TargetIsFifo<T>(c: Chan<T>, slot: nat, k: nat)
    requires c.Valid() && HasLane(c, slot)
    ensures var (d, v) := Targeted(c, slot);
      c.Unread(k) == (if v.Some? && slot == k then [v.value] else []) + d.Unread(k)
  {
    hide Chan.Rotation, Chan.Shape, Without, Chan.Load;
    var l := c.lanes[slot].value.Refilled();
    RefillKeepsUnread(c.lanes[slot].value);
    if l.window != [] {
      TakeKeepsUnread(l);
    }
    var d := Targeted(c, slot).0;
    assert k != slot ==> d.Unread(k) == c.Unread(k);
  }

  lemma RefillKeepsUnread<T>(l: LaneView<T>)
    ensures l.Refilled().Unread() == l.Unread()
  {
  }

  lemma TakeKeepsUnread<T>(l: LaneView<T>)
    requires l.window != []
    ensures l.Unread() == [l.window[0]] + l.Taken(false).(burst := l.burst).Unread()
  {
    assert l.window == [l.window[0]] + l.window[1..];
  }

  lemma SendIsFifo<T>(c: Chan<T>, slot: nat, value: T, k: nat)
    requires c.Valid() && HasLane(c, slot)
    ensures Pushed(c, slot, value).Unread(k) == c.Unread(k) + if slot == k then [value] else []
    ensures Published(c, slot, value).Unread(k) == c.Unread(k) + if slot == k then [value] else []
  {
    hide Chan.Rotation;
    var l := c.lanes[slot].value;
    assert l.window + (l.beyond + [value]) == l.window + l.beyond + [value];
  }

  lemma RaceIsFifo<T>(c: Chan<T>, slot: nat, late: seq<T>, marked: bool, k: nat)
    requires c.Valid() && HasLane(c, slot) && (late == [] || c.Unread(slot) == [])
    ensures Raced(c, slot, late, marked).Unread(k) == c.Unread(k) + From(Labeled(slot, late), k)
  {
    FromLabeled(slot, late, k);
  }

  lemma {:induction false} FromLabeled<T>(slot: nat, s: seq<T>, k: nat)
    ensures From(Labeled(slot, s), k) == if slot == k then s else []
    decreases |s|
  {
    if s != [] {
      FromLabeled(slot, s[1..], k);
      FromFirst((slot, s[0]), Labeled(slot, s[1..]), k);
    }
  }

  lemma FairTakesOldest<T>(c: Chan<T>, k: nat)
    requires c.Valid()
    ensures var (d, v) := ReceivedFair(c);
      c.Unread(k) == (if v.Some? && v.value.0 == k then [v.value.1] else []) + d.Unread(k)
  {
    hide Received;
    var f := Collected(c, true).(budget := READY_POLL_INTERVAL);
    assert f.Unread(k) == c.Unread(k);
    ReceiveTakesOldest(f, true, k);
  }

  lemma KeepsUnread<T>(c: Chan<T>, slot: nat, k: nat)
    requires c.Valid() && HasLane(c, slot)
    ensures Paused(c, slot).Unread(k) == c.Unread(k) && Resumed(c, slot).Unread(k) == c.Unread(k)
  {
    hide Chan.Rotation, Without;
  }

  lemma PollKeepsUnread<T>(c: Chan<T>, k: nat)
    requires c.Valid()
    ensures AllPolled(c).Unread(k) == c.Unread(k)
  {
    hide Chan.Valid, AllPolled;
  }

  lemma TargetOpIsFifo<T>(c: Chan<T>, slot: nat, late: seq<T>, marked: bool, k: nat)
    requires c.Valid() && HasLane(c, slot) && (late == [] || c.Unread(slot) == [])
    ensures var r := Raced(c, slot, late, marked);
      && r.Valid() && HasLane(r, slot)
      && var (d, v) := Targeted(r, slot);
         From(if v.Some? then [(slot, v.value)] else [], k) + d.Unread(k) == c.Unread(k) + From(Labeled(slot, late), k)
  {
    hide Targeted, Raced, Labeled, Chan.Valid, Chan.Unread;
    RacedValid(c, slot, late, marked);
    var r := Raced(c, slot, late, marked);
    RaceIsFifo(c, slot, late, marked, k);
    TargetIsFifo(r, slot, k);
    if Targeted(r, slot).1.Some? {
      FromOne((slot, Targeted(r, slot).1.value), k);
    }
  }

  lemma OpIsFifo<A, T>(c: Chan<T>, op: Op<A, T>, k: nat)
    requires c.Valid()
    ensures var r := Applied(c, op); From(r.out, k) + r.chan.Unread(k) == c.Unread(k) + From(r.sent, k)
  {
    hide Received, ReceivedFair, Drained, Targeted, Raced, Labeled, Published, Pushed, AllPolled;
    hide Chan.Valid, Chan.Unread;
    match op
    case Plain =>
      ReceiveTakesOldest(c, false, k);
      if Received(c, false).1.Some? {
        FromOne(Received(c, false).1.value, k);
      }
    case Fair =>
      FairTakesOldest(c, k);
      if ReceivedFair(c).1.Some? {
        FromOne(ReceivedFair(c).1.value, k);
      }
    case Bulk(limit, admit, a) => DrainIsFifo(c, limit, admit, a, k);
    case PollAll => PollKeepsUnread(c, k);
    case Target(slot, late, marked) =>
      if HasLane(c, slot) {
        var raced := if Races(c, slot) then late else [];
        TargetOpIsFifo(c, slot, raced, marked, k);
      }
    case Send(slot, value) =>
      if HasLane(c, slot) {
        SendIsFifo(c, slot, value, k);
        FromOne((slot, value), k);
      }
    case Push(slot, value) =>
      if HasLane(c, slot) {
        SendIsFifo(c, slot, value, k);
        FromOne((slot, value), k);
      }
    case Pause(slot) => if HasLane(c, slot) { KeepsUnread(c, slot, k); }
    case Resume(slot) => if HasLane(c, slot) { KeepsUnread(c, slot, k); }
  }

  /** Per-lane FIFO over every sequence of operations: what came from a lane, followed
      by what it still holds, is what it held followed by what was sent on it. */
  lemma {:induction false} MixIsFifo<A, T>(c: Chan<T>, ops: seq<Op<A, T>>, k: nat)
    requires c.Valid()
    ensures var r := AppliedAll(c, ops); From(r.out, k) + r.chan.Unread(k) == c.Unread(k) + From(r.sent, k)
    decreases |ops|
  {
    hide Applied, Chan.Unread, Chan.Valid;
    if ops != [] {
      var first := Applied(c, ops[0]);
      AppliedValid(c, ops[0]);
      OpIsFifo(c, ops[0], k);
      MixIsFifo(first.chan, ops[1..], k);
      var rest := AppliedAll(first.chan, ops[1..]);
      FromJoin(first.out, rest.out, k);
      FromJoin(first.sent, rest.sent, k);
      JoinFifo(From(first.out, k), From(rest.out, k), c.Unread(k), first.chan.Unread(k), rest.chan.Unread(k),
               From(first.sent, k), From(rest.sent, k));
    }
  }

  lemma JoinFifo<T>(o: seq<T>, p: seq<T>, u: seq<T>, v: seq<T>, w: seq<T>, x: seq<T>, y: seq<T>)
    requires o + v == u + x && p + w == v + y
    ensures o + p + w == u + (x + y)
  {
    assert o + p + w == o + (p + w) == o + v + y == u + x + y == u + (x + y);
  }

  // Bounded waiting

  /** How many leading values of an output come from other lanes than `k`. */
  function Others<T>(out: seq<(nat, T)>, k: nat): (n: nat)
    ensures n <= |out|
    ensures n < |out| ==> out[n].0 == k
    ensures forall i :: 0 <= i < n ==> out[i].0 != k
  {
    if out == [] || out[0].0 == k then 0 else 1 + Others(out[1..], k)
  }

  /** Lane `k` waits at position `p` of the rotation with values to give. */
  predicate Waits<T>(c: Chan<T>, k: nat, p: nat) {
    c.Valid() && p < |c.active| && c.active[p] == k && c.Unread(k) != []
  }

  /** What an output may do to a waiting lane: either its first values are bounded by
      the bursts ahead of it and then it is served, or all of them are others' and it
      waits on with that many fewer ahead. */
  ghost predicate TurnKept<T>(c: Chan<T>, k: nat, p: nat, out: seq<(nat, T)>, d: Chan<T>, q: nat)
    requires Waits(c, k, p)
  {
    && Others(out, k) <= BurstsLeft(c, c.active[..p])
    && (Others(out, k) == |out| ==>
          Waits(d, k, q) && BurstsLeft(d, d.active[..q]) + |out| <= BurstsLeft(c, c.active[..p]))
  }

  lemma NoneKeepsTurn<T>(c: Chan<T>, k: nat, p: nat, d: Chan<T>, q: nat)
    requires Waits(c, k, p) && Waits(d, k, q) && BurstsLeft(d, d.active[..q]) <= BurstsLeft(c, c.active[..p])
    ensures TurnKept(c, k, p, [], d, q)
  {
  }

  /** Settling and refreshing keep a lane's turn. */
  lemma PrepareKeepsTurn<T>(c: Chan<T>, k: nat, p: nat) returns (q: nat)
    requires Waits(c, k, p)
    ensures Waits(Prepared(c), k, q)
    ensures BurstsLeft(Prepared(c), Prepared(c).active[..q]) <= BurstsLeft(c, c.active[..p])
  {
    hide Prepared, BurstsLeft, Chan.Unread;
    PreparedKeepsUnread(c, k);
    q := PrepareWhileWaiting(c, p);
  }

  lemma ReadyKeepsTurn<T>(c: Chan<T>, k: nat, p: nat) returns (q: nat)
    requires Waits(c, k, p)
    ensures Waits(Ready(c), k, q)
    ensures BurstsLeft(Ready(c), Ready(c).active[..q]) <= BurstsLeft(c, c.active[..p])
  {
    hide Prepared, BurstsLeft, Chan.Unread;
    q := PrepareKeepsTurn(c, k, p);
    if Prepared(c).budget == 0 {
      q := PrepareKeepsTurn(Prepared(c), k, q);
    }
  }

  /** A delivery of either kind serves the front lane and uses up one value of its
      burst, or all of it. */
  lemma DeliveryKeepsTurn<T>(c: Chan<T>, k: nat, p: nat, fair: bool) returns (q: nat)
    requires Waits(c, k, p) && Deliverable(c) && 0 < p
    ensures var d := Delivered(c, fair);
      Waits(d, k, q) && BurstsLeft(d, d.active[..q]) < BurstsLeft(c, c.active[..p])
  {
    hide Chan.Unread, Delivered;
    DeliveredTakesOldest(c, fair, k);
    if fair {
      q := p - 1;
      FairLeavesBursts(c, p);
    } else {
      q := PositionAfter(c, p);
      DeliverWhileWaiting(c, p);
    }
  }

  lemma FairLeavesBursts<T>(c: Chan<T>, p: nat)
    requires Deliverable(c) && 0 < p < |c.active|
    ensures var d := Delivered(c, true);
      && p - 1 < |d.active| && d.active[p - 1] == c.active[p]
      && BurstsLeft(d, d.active[..p - 1]) < BurstsLeft(c, c.active[..p])
  {
    var d := Delivered(c, true);
    BurstsLeftFirst(c, p);
    BurstsLeftSame(c, d, c.active[1..p]);
    assert d.active[..p - 1] == c.active[1..p];
  }

  lemma OthersOne<T>(x: (nat, T), out: seq<(nat, T)>, k: nat)
    ensures Others([x] + out, k) == if x.0 == k then 0 else 1 + Others(out, k)
  {
    assert ([x] + out)[1..] == out;
  }

  lemma ReceiveKeepsTurn<T>(c: Chan<T>, k: nat, p: nat, fair: bool) returns (q: nat)
    requires Waits(c, k, p)
    ensures var (d, v) := Received(c, fair); v.Some? && TurnKept(c, k, p, [v.value], d, q)
  {
    hide Prepared, Delivered, BurstsLeft, Chan.Unread;
    q := PrepareKeepsTurn(c, k, p);
    var r := Prepared(c);
    OthersOne((r.active[0], r.Front().window[0]), [], k);
    assert [(r.active[0], r.Front().window[0])] + [] == [(r.active[0], r.Front().window[0])];
    if 0 < q {
      q := DeliveryKeepsTurn(r, k, q, fair);
    }
  }

  lemma FairReceiveKeepsTurn<T>(c: Chan<T>, k: nat, p: nat) returns (q: nat)
    requires Waits(c, k, p)
    ensures var (d, v) := ReceivedFair(c); v.Some? && TurnKept(c, k, p, [v.value], d, q)
  {
    hide Received, Collected;
    var f := Collected(c, true).(budget := READY_POLL_INTERVAL);
    assert c.active <= f.active && f.active[..p] == c.active[..p];
    BurstsLeftSame(c, f, c.active[..p]);
    q := ReceiveKeepsTurn(f, k, p, true);
  }

  /** A turn kept through one value and through those after it is kept through all. */
  lemma TurnKeptJoin<T>(c: Chan<T>, k: nat, p: nat, x: (nat, T), d: Chan<T>, q: nat, out: seq<(nat, T)>, e: Chan<T>, r: nat)
    requires Waits(c, k, p) && x.0 != k
    requires Waits(d, k, q) && BurstsLeft(d, d.active[..q]) < BurstsLeft(c, c.active[..p])
    requires TurnKept(d, k, q, out, e, r)
    ensures TurnKept(c, k, p, [x] + out, e, r)
  {
    hide BurstsLeft;
    OthersOne(x, out, k);
  }

  /** A bulk receive, whatever its admission test does, keeps a lane's turn. */
  lemma {:induction false} DrainKeepsTurn<A, T>(c: Chan<T>, k: nat, p: nat, limit: nat, admit: (A, T) -> (A, bool), a: A)
    returns (q: nat)
    requires Waits(c, k, p)
    ensures var d := Drained(c, limit, admit, a); TurnKept(c, k, p, d.out, d.chan, q)
    decreases limit
  {
    hide Ready, Delivered, BurstsLeft, Chan.Unread;
    if limit == 0 {
      q := p;
    } else {
      q := ReadyKeepsTurn(c, k, p);
      var r := Ready(c);
      var value := r.Front().window[0];
      var (next, ok) := admit(a, value);
      if ok {
        q := DrainKeepsTurnOn(c, k, p, r, q, limit, admit, next);
      }
    }
  }

  lemma DrainKeepsTurnOn<A, T>(c: Chan<T>, k: nat, p: nat, r: Chan<T>, q: nat, limit: nat, admit: (A, T) -> (A, bool), next: A)
    returns (t: nat)
    requires Waits(c, k, p) && Waits(r, k, q) && Deliverable(r) && 0 < limit
    requires BurstsLeft(r, r.active[..q]) <= BurstsLeft(c, c.active[..p])
    ensures var d := Drained(Delivered(r, false), limit - 1, admit, next);
      TurnKept(c, k, p, [(r.active[0], r.Front().window[0])] + d.out, d.chan, t)
    decreases limit, 0
  {
    hide Delivered, BurstsLeft, Chan.Unread, Drained;
    var x := (r.active[0], r.Front().window[0]);
    var d := Delivered(r, false);
    t := 0;
    if q == 0 {
      OthersOne(x, Drained(d, limit - 1, admit, next).out, k);
    } else {
      var m := DeliveryKeepsTurn(r, k, q, false);
      t := DrainKeepsTurn(d, k, m, limit - 1, admit, next);
      var rest := Drained(d, limit - 1, admit, next);
      TurnKeptJoin(c, k, p, x, d, m, rest.out, rest.chan, t);
    }
  }

  lemma SendKeepsTurn<T>(c: Chan<T>, k: nat, p: nat, slot: nat, value: T)
    requires Waits(c, k, p) && HasLane(c, slot)
    ensures TurnKept(c, k, p, [], Pushed(c, slot, value), p)
    ensures TurnKept(c, k, p, [], Published(c, slot, value), p)
  {
    hide BurstsLeft;
    var d, e := Pushed(c, slot, value), Published(c, slot, value);
    PublishedValid(c, slot, value);
    SendIsFifo(c, slot, value, k);
    SameBursts(c, d, c.active[..p]);
    NoneKeepsTurn(c, k, p, d, p);
    SameBursts(c, e, c.active[..p]);
    NoneKeepsTurn(c, k, p, e, p);
  }

  lemma SendOpKeepsTurn<T>(c: Chan<T>, k: nat, p: nat, slot: nat, value: T)
    requires Waits(c, k, p)
    ensures TurnKept(c, k, p, [], if Open(c, slot) then Pushed(c, slot, value) else c, p)
    ensures TurnKept(c, k, p, [], if Open(c, slot) then Published(c, slot, value) else c, p)
  {
    hide TurnKept, Pushed, Published;
    if Open(c, slot) {
      SendKeepsTurn(c, k, p, slot, value);
    } else {
      NoneKeepsTurn(c, k, p, c, p);
    }
  }

  lemma PollKeepsTurn<T>(c: Chan<T>, k: nat, p: nat)
    requires Waits(c, k, p)
    ensures TurnKept(c, k, p, [], AllPolled(c), p)
  {
    hide BurstsLeft, AllPolled;
    var d := AllPolled(c);
    assert d.active[..p] == c.active[..p];
    SameBursts(c, d, c.active[..p]);
    NoneKeepsTurn(c, k, p, d, p);
  }

  lemma {:induction false} SameBursts<T>(c: Chan<T>, d: Chan<T>, s: seq<nat>)
    requires c.Shape() && d.Shape() && |c.lanes| == |d.lanes|
    requires forall i :: 0 <= i < |s| ==>
      s[i] < |c.lanes| && c.lanes[s[i]].Some? && d.lanes[s[i]].Some?
      && d.lanes[s[i]].value.burst == c.lanes[s[i]].value.burst
    ensures BurstsLeft(d, s) == BurstsLeft(c, s)
    decreases |s|
  {
    if s != [] {
      SameBursts(c, d, s[1..]);
    }
  }

  /** Plain, fair, bulk and scan receives, and sends: the operations that keep turns. */
  predicate KeepsTurns<A, T>(op: Op<A, T>) {
    op.Plain? || op.Fair? || op.Bulk? || op.PollAll? || op.Send? || op.Push?
  }

  lemma OpKeepsTurn<A, T>(c: Chan<T>, op: Op<A, T>, k: nat, p: nat) returns (q: nat)
    requires Waits(c, k, p) && KeepsTurns(op)
    ensures var r := Applied(c, op); TurnKept(c, k, p, r.out, r.chan, q)
    ensures op.Plain? || op.Fair? ==> |Applied(c, op).out| == 1
  {
    hide TurnKept, Received, ReceivedFair, Drained, Published, Pushed, AllPolled;
    q := p;
    match op
    case Plain => q := ReceiveKeepsTurn(c, k, p, false);
    case Fair => q := FairReceiveKeepsTurn(c, k, p);
    case Bulk(limit, admit, a) => q := DrainKeepsTurn(c, k, p, limit, admit, a);
    case PollAll => PollKeepsTurn(c, k, p);
    case Send(slot, value) => SendOpKeepsTurn(c, k, p, slot, value);
    case Push(slot, value) => SendOpKeepsTurn(c, k, p, slot, value);
  }

  lemma {:induction false} OthersJoin<T>(x: seq<(nat, T)>, y: seq<(nat, T)>, k: nat)
    ensures Others(x + y, k) == if Others(x, k) < |x| then Others(x, k) else |x| + Others(y, k)
    decreases |x|
  {
    if x == [] {
      assert x + y == y;
    } else {
      assert (x + y)[1..] == x[1..] + y;
      OthersJoin(x[1..], y, k);
    }
  }

  lemma {:induction false} MixKeepsTurn<A, T>(c: Chan<T>, ops: seq<Op<A, T>>, k: nat, p: nat) returns (q: nat)
    requires Waits(c, k, p) && forall i :: 0 <= i < |ops| ==> KeepsTurns(ops[i])
    ensures var r := AppliedAll(c, ops); TurnKept(c, k, p, r.out, r.chan, q)
    decreases |ops|
  {
    hide Applied, BurstsLeft, Chan.Unread;
    if ops == [] {
      q := p;
    } else {
      var first := Applied(c, ops[0]);
      AppliedValid(c, ops[0]);
      q := OpKeepsTurn(c, ops[0], k, p);
      var rest := AppliedAll(first.chan, ops[1..]);
      OthersJoin(first.out, rest.out, k);
      if Others(first.out, k) == |first.out| {
        q := MixKeepsTurn(first.chan, ops[1..], k, q);
      }
    }
  }

  /** No starvation, for any mix of plain, fair, bulk and scan receives with sends in
      between: a lane with values behind `p` others is served before more than one
      full burst from each of them has come out. */
  lemma ServedWithinBursts<A, T>(c: Chan<T>, ops: seq<Op<A, T>>, k: nat, p: nat)
    requires Waits(c, k, p) && forall i :: 0 <= i < |ops| ==> KeepsTurns(ops[i])
    ensures Others(AppliedAll(c, ops).out, k) <= PREFETCH_LIMIT * p
  {
    var q := MixKeepsTurn(c, ops, k, p);
  }

  function Singles<A, T>(ops: seq<Op<A, T>>): nat {
    if ops == [] then 0 else (if ops[0].Plain? || ops[0].Fair? then 1 else 0) + Singles(ops[1..])
  }

  /** While the lane waits, every single receive returns a value. */
  lemma {:induction false} SinglesDeliver<A, T>(c: Chan<T>, ops: seq<Op<A, T>>, k: nat, p: nat)
    requires Waits(c, k, p) && forall i :: 0 <= i < |ops| ==> KeepsTurns(ops[i])
    requires var out := AppliedAll(c, ops).out; Others(out, k) == |out|
    ensures Singles(ops) <= |AppliedAll(c, ops).out|
    decreases |ops|
  {
    hide Applied, BurstsLeft, Chan.Unread;
    if ops != [] {
      var first := Applied(c, ops[0]);
      AppliedValid(c, ops[0]);
      var q := OpKeepsTurn(c, ops[0], k, p);
      OthersJoin(first.out, AppliedAll(first.chan, ops[1..]).out, k);
      SinglesDeliver(first.chan, ops[1..], k, q);
    }
  }

  lemma {:induction false} FromOthers<T>(out: seq<(nat, T)>, k: nat)
    requires Others(out, k) < |out|
    ensures From(out, k) != [] && From(out, k)[0] == out[Others(out, k)].1
    decreases |out|
  {
    if out[0].0 != k {
      FromOthers(out[1..], k);
    }
  }

  /** So any mix with more than one full burst of single receives per lane ahead
      serves the lane, with its oldest value first. */
  lemma AnyMixServes<A, T>(c: Chan<T>, ops: seq<Op<A, T>>, k: nat, p: nat)
    requires Waits(c, k, p) && forall i :: 0 <= i < |ops| ==> KeepsTurns(ops[i])
    requires PREFETCH_LIMIT * p < Singles(ops)
    ensures var out := AppliedAll(c, ops).out;
      Others(out, k) < |out| && out[Others(out, k)] == (k, c.Unread(k)[0])
  {
    hide Chan.Unread;
    var r := AppliedAll(c, ops);
    ServedWithinBursts(c, ops, k, p);
    if Others(r.out, k) == |r.out| {
      SinglesDeliver(c, ops, k, p);
    }
    FromOthers(r.out, k);
    MixIsFifo(c, ops, k);
    assert (From(r.out, k) + r.chan.Unread(k))[0] == From(r.out, k)[0];
  }

  // Scans

  lemma {:induction false} QueueSlotsFinds<T>(c: Chan<T>, lo: nat, k: nat)
    requires c.Valid() && lo <= |c.lanes| && HasLane(c, k) && !c.paused[k] && (lo <= k || k in c.active)
    ensures k in QueueSlots(c, lo).active
    decreases |c.lanes| - lo
  {
    if lo < |c.lanes| {
      QueueSlotsFinds(c.QueueSlot(lo), lo + 1, k);
    }
  }

  /** A bulk receive that stops short of its limit, with nothing rejected, has emptied
      every lane that was in rotation. */
  lemma {:induction false} DrainEmpties<A, T>(c: Chan<T>, limit: nat, admit: (A, T) -> (A, bool), a: A, k: nat)
    requires c.Valid() && (k in c.active || c.Unread(k) == [])
    requires var d := Drained(c, limit, admit, a); |d.out| < limit && !d.rejected
    ensures Drained(c, limit, admit, a).chan.Unread(k) == []
    decreases limit
  {
    hide Ready, Delivered, Chan.Unread, Chan.Valid;
    var p := Ready(c);
    ReadyKeepsUnread(c, k);
    if k in c.active && c.Unread(k) != [] {
      ReadyKeepsQueued(c, k);
    }
    if p.active != [] {
      ReadyIsDeliverable(c);
      DeliveredTakesOldest(p, false, k);
      DeliveredKeepsQueued(p, k);
      DrainEmpties(Delivered(p, false), limit - 1, admit, admit(a, p.Front().window[0]).0, k);
    }
  }

  lemma ReadyKeepsQueued<T>(c: Chan<T>, k: nat)
    requires c.Valid() && k in c.active && c.Unread(k) != []
    ensures k in Ready(c).active
  {
    hide Ready, Chan.Unread, BurstsLeft;
    var p :| 0 <= p < |c.active| && c.active[p] == k;
    var q := ReadyKeepsTurn(c, k, p);
  }

  lemma DeliveredKeepsQueued<T>(c: Chan<T>, k: nat)
    requires Deliverable(c)
    ensures k in c.active ==> k in Delivered(c, false).active
  {
    assert c.active == [c.active[0]] + c.active[1..];
  }

  /** A scan that stops short of its limit, with nothing rejected, has received all
      that every unpaused lane held, signaled or not. */
  lemma ScanFindsEverything<A, T>(c: Chan<T>, limit: nat, admit: (A, T) -> (A, bool), a: A, k: nat)
    requires c.Valid() && HasLane(c, k) && !c.paused[k]
    requires var d := Drained(AllPolled(c), limit, admit, a); |d.out| < limit && !d.rejected
    ensures var d := Drained(AllPolled(c), limit, admit, a); From(d.out, k) == c.Unread(k) && d.chan.Unread(k) == []
  {
    hide Drained, QueueSlots, Chan.Unread;
    QueueSlotsFinds(c, 0, k);
    PollKeepsUnread(c, k);
    DrainEmpties(AllPolled(c), limit, admit, a, k);
    DrainIsFifo(AllPolled(c), limit, admit, a, k);
  }

  // The poll budget

  /** One of the first `limit` values of a bulk receive is taken on a used-up budget. */
  predicate DrainWraps<A, T>(c: Chan<T>, limit: nat, admit: (A, T) -> (A, bool), a: A)
    requires c.Valid()
    decreases limit
  {
    && 0 < limit
    && var p := Ready(c);
       && p.active != [] && admit(a, p.Front().window[0]).1
       && (p.budget == 0 || DrainWraps(Delivered(p, false), limit - 1, admit, admit(a, p.Front().window[0]).0))
  }

  /** A receive on the state `c` takes its value on a used-up budget. */
  predicate ReceiveWraps<T>(c: Chan<T>)
    requires c.Valid()
  {
    Prepared(c).active != [] && Prepared(c).budget == 0
  }

  /** The operation takes a value on a used-up budget, so that the counter wraps. */
  predicate Wraps<A, T>(c: Chan<T>, op: Op<A, T>)
    requires c.Valid()
  {
    match op
    case Plain => ReceiveWraps(c)
    case Fair => ReceiveWraps(Collected(c, true).(budget := READY_POLL_INTERVAL))
    case Bulk(limit, admit, a) => DrainWraps(c, limit, admit, a)
    case _ => false
  }

  predicate AnyWraps<A, T>(c: Chan<T>, ops: seq<Op<A, T>>)
    requires c.Valid()
    decreases |ops|
  {
    ops != [] && (Wraps(c, ops[0]) || (AppliedValid(c, ops[0]); AnyWraps(Applied(c, ops[0]).chan, ops[1..])))
  }

  lemma ReadyHasBudget<T>(c: Chan<T>)
    requires c.Valid() && Ready(c).active != []
    ensures 0 < Ready(c).budget
  {
    hide Prepared;
    if Prepared(c).active != [] && Prepared(c).budget == 0 {
      PreparedHasBudget(Prepared(c));
    }
  }

  lemma {:induction false} DrainNeverWraps<A, T>(c: Chan<T>, limit: nat, admit: (A, T) -> (A, bool), a: A)
    requires c.Valid()
    ensures !DrainWraps(c, limit, admit, a)
    decreases limit
  {
    hide Ready, Delivered;
    if 0 < limit && Ready(c).active != [] {
      ReadyHasBudget(c);
      ReadyIsDeliverable(c);
      DrainNeverWraps(Delivered(Ready(c), false), limit - 1, admit, admit(a, Ready(c).Front().window[0]).0);
    }
  }

  /** Fair and bulk receives never wrap the counter. A plain receive does exactly when
      the budget is used up, the rotation is empty, and the first lane a full collection
      queues has a value. */
  lemma OpWrapsExactlyWhen<A, T>(c: Chan<T>, op: Op<A, T>)
    requires c.Valid()
    ensures var d := Collected(c, true);
      Wraps(c, op) <==>
      op.Plain? && c.budget == 0 && c.active == [] && d.active != [] && d.Unread(d.active[0]) != []
  {
    hide Prepared, DrainWraps, Collected, Chan.Unread;
    match op
    case Plain => BudgetWrapsExactlyWhen(c);
    case Fair => PreparedHasBudget(Collected(c, true).(budget := READY_POLL_INTERVAL));
    case Bulk(limit, admit, a) => DrainNeverWraps(c, limit, admit, a);
    case _ =>
  }

  /** A bulk receive keeps the budget sound, whatever its admission test does. */
  lemma {:induction false} DrainKeepsPolled<A, T>(c: Chan<T>, limit: nat, admit: (A, T) -> (A, bool), a: A)
    requires c.Valid() && Polled(c)
    ensures Polled(Drained(c, limit, admit, a).chan)
    decreases limit
  {
    hide Ready, Delivered, Chan.Valid;
    if 0 < limit {
      ReadyIsPrepared(c);
      PreparedHasBudget(c);
      if Ready(c).active != [] {
        ReadyIsDeliverable(c);
        DrainKeepsPolled(Delivered(Ready(c), false), limit - 1, admit, admit(a, Ready(c).Front().window[0]).0);
      }
    }
  }

  /** All operations but pauses and targeted receives, which can empty the rotation with
      the budget used up. */
  predicate KeepsPolled<A, T>(op: Op<A, T>) { KeepsTurns(op) || op.Resume? }

  lemma OpKeepsPolled<A, T>(c: Chan<T>, op: Op<A, T>)
    requires c.Valid() && Polled(c) && KeepsPolled(op)
    ensures Polled(Applied(c, op).chan)
  {
    hide Received, Drained, AllPolled, Collected;
    match op
    case Plain => ReceiveKeepsPolled(c, false);
    case Fair => ReceiveKeepsPolled(Collected(c, true).(budget := READY_POLL_INTERVAL), true);
    case Bulk(limit, admit, a) => DrainKeepsPolled(c, limit, admit, a);
    case _ =>
  }

  /** Without pauses and targeted receives the poll counter never wraps: no value of any
      such run is taken on a used-up budget, and the rule that a used-up budget comes
      with lanes in rotation is kept. */
  lemma {:induction false} MixNeverWraps<A, T>(c: Chan<T>, ops: seq<Op<A, T>>)
    requires c.Valid() && Polled(c) && forall i :: 0 <= i < |ops| ==> KeepsPolled(ops[i])
    ensures !AnyWraps(c, ops) && Polled(AppliedAll(c, ops).chan)
    decreases |ops|
  {
    hide Applied, Wraps, Chan.Valid;
    if ops != [] {
      AppliedValid(c, ops[0]);
      OpWrapsExactlyWhen(c, ops[0]);
      OpKeepsPolled(c, ops[0]);
      MixNeverWraps(Applied(c, ops[0]).chan, ops[1..]);
    }
  }
}
