/** Reachable states that show why three natural statements are not guarantees. */
module MpscWitness {
  import opened MpscModel
  import opened MpscInvariant
  import opened MpscTheorems

  ghost predicate Reachable(s: State) {
    exists run: seq<State> :: IsRun(run) && run[|run| - 1] == s
  }

  lemma ReachInit(cap: nat)
    requires 0 < cap
    ensures Reachable(Init(cap))
  {
    assert IsRun([Init(cap)]);
  }

  lemma ReachStep(s: State, a: Step, t: State)
    requires Reachable(s) && Enabled(s, a) && t == Apply(s, a)
    ensures Reachable(t)
  {
    var run: seq<State> :| IsRun(run) && run[|run| - 1] == s;
    var longer := run + [t];
    forall k | 0 <= k < |longer| - 1 ensures Next(longer[k], longer[k + 1]) {
      if k == |run| - 1 {
        assert longer[k] == s && longer[k + 1] == t;
      } else {
        assert longer[k] == run[k] && longer[k + 1] == run[k + 1];
      }
    }
    assert IsRun(longer) && longer[|longer| - 1] == t;
  }

  /** A lane can be in the rotation without being pending: polling all lanes
      queues it without marking it. */
  lemma QueuedNeedNotBePending() returns (s: State)
    ensures Reachable(s) && |s.lanes| == 1 && s.lanes[0].queued && !s.lanes[0].pending
  {
    ReachInit(1);
    s := Apply(Init(1), ByReceiver(PollAll));
    ReachStep(Init(1), ByReceiver(PollAll), s);
  }

  /** An idle lane 0 with one value already published but unsignaled. */
  lemma UnsignaledSend() returns (s: State)
    ensures Reachable(s)
    ensures s == Init(1).(lanes := [NewLane(Slot(Page(0, 0), 0), 1).(cursor := 1, tail := 1, plain := false)])
  {
    ReachInit(1);
    var l := NewLane(Slot(Page(0, 0), 0), 1);
    var s1 := Init(1).(lanes := [l.(cursor := 1, plain := false, pc := Pushed(false))]);
    ReachStep(Init(1), ByPublish(0, Push(false)), s1);
    s := s1.(lanes := [l.(cursor := 1, tail := 1, plain := false)]);
    ReachStep(s1, ByPublish(0, Flush), s);
  }

  lemma SenderFindsFull(s: State, l: Lane) returns (t: State)
    requires Reachable(s) && s.lanes == [l] && l.pc.Ready? && l.cursor == l.pub + l.cap && !l.closed
    ensures Reachable(t) && t == s.(lanes := [l.(pc := Full(l.spaceGen))])
  {
    var s1 := s.(lanes := [l.(pc := Registered(l.spaceGen))]);
    ReachStep(s, BySpace(0, SpaceRegister), s1);
    t := s.(lanes := [l.(pc := Full(l.spaceGen))]);
    ReachStep(s1, BySpace(0, SpaceFull), t);
  }

  lemma SenderFallsAsleep(s: State, l: Lane) returns (t: State)
    requires Reachable(s) && s.lanes == [l] && l.pc == Full(l.spaceGen) && !l.closed
    ensures Reachable(t) && t == s.(lanes := [l.(pc := Asleep(l.spaceGen))])
  {
    var checked, asleep := l.(pc := Checked(l.spaceGen)), l.(pc := Asleep(l.spaceGen));
    assert s.lanes[0 := checked] == [checked] && [checked][0 := asleep] == [asleep];
    var s1 := s.(lanes := [checked]);
    ReachStep(s, BySpace(0, SpaceCheck), s1);
    t := s.(lanes := [asleep]);
    ReachStep(s1, BySpace(0, SpaceSleep), t);
  }

  lemma ReceiverStartsToWait(s: State) returns (t: State)
    requires Reachable(s) && Running(s) && s.mode.Awake? && !s.scanning && s.oweSpace == {} && s.sigSpace == {}
    requires s.pageLane == map[Page(0, 0) := 0]
    ensures Reachable(t)
    ensures t == s.(mode := Waiting(s.dataGen), waiting := true, known := |s.lanes|, pc := Scan, todo := {0}, swept := true)
  {
    var s1 := Apply(s, ByReceiver(WaitRegister));
    ReachStep(s, ByReceiver(WaitRegister), s1);
    t := Apply(s1, ByCollect(CollectStart));
    ReachStep(s1, ByCollect(CollectStart), t);
    assert Page(0, 0) in s1.pageLane;
    assert t.todo == {0};
  }

  /** The receiver is about to sleep. */
  lemma ReceiverDecides(s: State) returns (t: State)
    requires Reachable(s) && s.mode == Waiting(s.dataGen) && s.pc.Scan? && s.todo == {0} && s.swept
    requires NothingQueued(s) && s.oweSpace == {} && s.sigSpace == {} && s.groupBits == {} && s.claimPages == {}
    requires 0 < s.liveSenders
    ensures Reachable(t) && t == s.(todo := {}, pc := Deciding, sawLive := true)
  {
    hide Reachable;
    var s1 := s.(todo := {});
    assert {0} - {0} == {};
    ReachStep(s, ByCollect(SkipGroup(0)), s1);
    var s2 := s1.(pc := Idle);
    ReachStep(s1, ByCollect(CollectEnd), s2);
    t := s.(todo := {}, pc := Deciding, sawLive := true);
    ReachStep(s2, ByReceiver(SeeLive), t);
  }

  lemma ReceiverFallsAsleep(s: State) returns (t: State)
    requires Reachable(s) && s.mode == Waiting(s.dataGen) && s.pc.Scan? && s.todo == {0} && s.swept
    requires NothingQueued(s) && s.oweSpace == {} && s.sigSpace == {} && s.groupBits == {} && s.claimPages == {}
    requires 0 < s.liveSenders
    ensures Reachable(t) && t.mode.Sleeping? && t.lanes == s.lanes
  {
    hide Reachable;
    var d := ReceiverDecides(s);
    t := d.(pc := Idle, mode := Sleeping(s.dataGen));
    ReachStep(d, ByReceiver(Sleep), t);
  }

  /** Without signaled sends the channel can stop: after one unsignaled send into
      a one-slot ring, sender and receiver both sleep with nothing in progress.
      MutualSleepNeedsUnsignaled shows this is the only way. */
  lemma UnsignaledSendsCanDeadlock() returns (s: State)
    ensures Reachable(s) && s.mode.Sleeping? && SendersQuiet(s)
    ensures |s.lanes| == 1 && s.lanes[0].pc.Asleep? && !s.lanes[0].paused && !s.lanes[0].retired
    ensures s.lanes[0].head < s.lanes[0].tail
  {
    var a := UnsignaledSend();
    var b := SenderFindsFull(a, a.lanes[0]);
    var c := SenderFallsAsleep(b, b.lanes[0]);
    var d := ReceiverStartsToWait(c);
    s := ReceiverFallsAsleep(d);
  }

  /** A sender that has written its value into the ring and swapped its signal. */
  function Marking1(l: Lane): Lane {
    l.(cursor := 1, tail := 1, signaled := 1, pending := true)
  }

  lemma SendUpToMark(s: State, i: nat) returns (t: State)
    requires Reachable(s) && i < |s.lanes| && s.lanes[i] == NewLane(s.lanes[i].slot, 1)
    ensures Reachable(t) && t == s.(lanes := s.lanes[i := Marking1(s.lanes[i]).(pc := MarkPage)])
  {
    var l := s.lanes[i];
    var s1 := s.(lanes := s.lanes[i := l.(cursor := 1, pc := Pushed(true))]);
    ReachStep(s, ByPublish(i, Push(true)), s1);
    var s2 := s.(lanes := s.lanes[i := l.(cursor := 1, tail := 1, pc := Flushed)]);
    assert s2.lanes == s1.lanes[i := s2.lanes[i]];
    ReachStep(s1, ByPublish(i, Flush), s2);
    t := s.(lanes := s.lanes[i := Marking1(l).(pc := MarkPage)]);
    assert t.lanes == s2.lanes[i := t.lanes[i]];
    ReachStep(s2, ByMark(i, Swap), t);
  }

  /** Two lanes of one page; lane 0 has set its page bit and not its group bit. */
  lemma FirstSendAtGroupBit() returns (s: State)
    ensures Reachable(s)
    ensures var first, other := Slot(Page(0, 0), 0), Slot(Page(0, 0), 1);
      s == Init(1).(lanes := [Marking1(NewLane(first, 1)).(pc := MarkGroup), NewLane(other, 1)],
                    bits := {first}, setter := map[first := 0], opener := map[Page(0, 0) := 0],
                    registered := 2, liveSenders := 2)
  {
    ReachInit(1);
    var s0 := Init(1);
    var other := Slot(Page(0, 0), 1);
    var s1 := Apply(s0, Register(other, 1));
    ReachStep(s0, Register(other, 1), s1);
    var s2 := SendUpToMark(s1, 0);
    s := Apply(s2, ByMark(0, PageBit));
    ReachStep(s2, ByMark(0, PageBit), s);
  }

  /** Lane 1 has returned from its send, yet the group bit of its page is not set,
      because lane 0 made the page non-empty first and has not set it yet. */
  lemma CompletedSendIsHidden() returns (s: State)
    ensures Reachable(s) && s.pc.Idle? && s.mode.Awake? && |s.lanes| == 2
    ensures s.pageLane == map[Page(0, 0) := 0] && s.claimPages == {} && s.claimSlots == {} && s.groupBits == {}
    ensures HasSignaled(s, 1) && s.lanes[1].pc.Ready? && !s.lanes[1].queued && s.lanes[0].pc.MarkGroup?
  {
    var s3 := FirstSendAtGroupBit();
    var s4 := SendUpToMark(s3, 1);
    var s5 := Apply(s4, ByMark(1, PageBit));
    assert s4.lanes[0].slot in s4.bits;
    ReachStep(s4, ByMark(1, PageBit), s5);
    s := Apply(s5, ByMark(1, NotifyData));
    ReachStep(s5, ByMark(1, NotifyData), s);
  }

  /** The collection that finds group 0, the only one, without a bit. */
  ghost predicate FruitlessCollection(s: State, t: State) {
    && Enabled(s, ByCollect(CollectStart))
    && var c := Apply(s, ByCollect(CollectStart));
       && c.todo == {0} && Enabled(c, ByCollect(SkipGroup(0)))
       && var d := Apply(c, ByCollect(SkipGroup(0)));
          Enabled(d, ByCollect(CollectEnd)) && t == Apply(d, ByCollect(CollectEnd))
  }

  lemma StartCollecting(s: State) returns (c: State)
    requires Reachable(s) && s.pc.Idle? && s.mode.Awake? && s.pageLane == map[Page(0, 0) := 0]
    ensures Reachable(c) && Enabled(s, ByCollect(CollectStart)) && c == Apply(s, ByCollect(CollectStart))
    ensures c == s.(known := |s.lanes|, pc := Scan, todo := {0}, swept := false)
  {
    hide Reachable;
    assert (set p | p in s.pageLane :: p.group) == {0} by {
      assert Page(0, 0) in s.pageLane;
    }
    c := s.(known := |s.lanes|, pc := Scan, todo := {0}, swept := false);
    ReachStep(s, ByCollect(CollectStart), c);
  }

  lemma CollectInVain(s: State) returns (t: State)
    requires Reachable(s) && s.pc.Idle? && s.mode.Awake? && s.claimPages == {} && s.groupBits == {}
    requires s.pageLane == map[Page(0, 0) := 0]
    ensures Reachable(t) && FruitlessCollection(s, t) && t.pc.Idle? && t.todo == {} && t.lanes == s.lanes
  {
    hide Reachable;
    var c := StartCollecting(s);
    assert {0} - {0} == {};
    var d := c.(todo := {});
    ReachStep(c, ByCollect(SkipGroup(0)), d);
    t := d.(pc := Idle);
    ReachStep(d, ByCollect(CollectEnd), t);
  }

  /** A completed signaled send can be missed by a whole collection: the collection
      visits every group, ends, and the lane is still not in the rotation. */
  lemma CompletedSendCanBeMissed() returns (s: State, t: State)
    ensures Reachable(s) && HasSignaled(s, 1) && s.lanes[1].pc.Ready? && !s.lanes[1].queued
    ensures Reachable(t) && FruitlessCollection(s, t)
    ensures t.pc.Idle? && t.todo == {} && HasSignaled(t, 1) && !t.lanes[1].queued
  {
    hide Reachable, FruitlessCollection;
    s := CompletedSendIsHidden();
    t := CollectInVain(s);
  }
}
