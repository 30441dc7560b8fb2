/** The receiver does not sleep through the end of the channel. */
module MpscEnding {
  import opened MpscModel
  import opened MpscInvariant
  import opened MpscTheorems

  /** The sender has dropped and marked its lane for the last time. */
  predicate Marked(l: Lane) { l.dropped && !l.pc.Flushed? }

  /** A lane whose sender has marked it for the last time is pending, or the receiver
      is about to mark or to settle it and will find it empty. */
  predicate LaneTracked(l: Lane, pc: ReceiverPc, i: nat) {
    !l.retired && !l.paused && Marked(l) && !l.pending ==>
      || pc == Rechecking(i) || pc == Claiming(i) || pc == MarkSwap(i) || pc == ClosingLane(i)
      || ((pc == Leaving(i) || pc == LeavingDropped(i)) && l.head == l.tail)
  }

  predicate Tracked(s: State) { forall i | 0 <= i < |s.lanes| :: LaneTracked(s.lanes[i], s.pc, i) }

  predicate Decided(s: State) { (s.pc.Deciding? && s.mode.Waiting?) || s.mode.Sleeping? }

  /** What the last look at the counters still means. */
  predicate Looked(s: State) {
    && (Decided(s) && s.sawLive && s.liveSenders == 0 && s.mode.snap == s.dataGen ==>
          s.leaver < |s.lanes| && s.lanes[s.leaver].pc.Notify?)
    && (Decided(s) && !s.sawLive ==>
          && s.liveSenders == 0 && 0 < s.registered
          && forall i | 0 <= i < |s.lanes| && s.lanes[i].paused :: s.lanes[i].head < s.lanes[i].tail)
  }

  predicate Ending(s: State) { Tracked(s) && Looked(s) }

  lemma PublishKeepsEnding(s: State, i: nat, op: PublishOp)
    requires i < |s.lanes| && EnabledPublish(s, i, op)
    requires Basic(s) && Life(s) && Control(s) && Ending(s)
    ensures Ending(ApplyPublish(s, i, op))
  {
  }

  lemma MarkKeepsEnding(s: State, i: nat, op: MarkOp)
    requires i < |s.lanes| && EnabledMark(s, i, op)
    requires Basic(s) && Life(s) && Control(s) && Ending(s)
    ensures Ending(ApplyMark(s, i, op))
  {
  }

  lemma SpaceKeepsEnding(s: State, i: nat, op: SpaceOp)
    requires i < |s.lanes| && EnabledSpace(s, i, op)
    requires Basic(s) && Life(s) && Control(s) && Ending(s)
    ensures Ending(ApplySpace(s, i, op))
  {
  }

  lemma CollectKeepsEnding(s: State, op: CollectOp)
    requires EnabledCollect(s, op)
    requires Basic(s) && Life(s) && Control(s) && Ending(s)
    ensures Ending(ApplyCollect(s, op))
  {
  }

  lemma ConsumeKeepsEnding(s: State, i: nat, op: ConsumeOp)
    requires i < |s.lanes| && EnabledConsume(s, i, op)
    requires Basic(s) && Life(s) && Control(s) && Ending(s)
    ensures Ending(ApplyConsume(s, i, op))
  {
  }

  lemma SettleKeepsEnding(s: State, i: nat, op: SettleOp)
    requires i < |s.lanes| && EnabledSettle(s, i, op)
    requires Basic(s) && Life(s) && Control(s) && Ending(s)
    ensures Ending(ApplySettle(s, i, op))
  {
  }

  lemma ManageKeepsEnding(s: State, i: nat, op: ManageOp)
    requires i < |s.lanes| && EnabledManage(s, i, op)
    requires Basic(s) && Life(s) && Control(s) && Ending(s)
    ensures Ending(ApplyManage(s, i, op))
  {
  }

  lemma RequeueKeepsEnding(s: State, i: nat, op: RequeueOp)
    requires i < |s.lanes| && EnabledRequeue(s, i, op)
    requires Basic(s) && Life(s) && Control(s) && Ending(s)
    ensures Ending(ApplyRequeue(s, i, op))
  {
  }

  lemma ReceiverKeepsEnding(s: State, op: WaitOp)
    requires EnabledReceiver(s, op)
    requires Basic(s) && Life(s) && Control(s) && Ending(s)
    ensures Ending(ApplyReceiver(s, op))
  {
  }

  lemma RegisterKeepsEnding(s: State, slot: Slot, cap: nat)
    requires Enabled(s, Register(slot, cap)) && Ending(s)
    ensures Ending(Apply(s, Register(slot, cap)))
  {
  }

  lemma StepKeepsEnding(s: State, a: Step)
    requires Inv(s) && Ending(s) && Enabled(s, a)
    ensures Ending(Apply(s, a))
  {
    hide Ending, Basic, Life, Distinct, Index, Control, Owed, Token, Data, Credit, Pages, Wakeup;
    hide SpaceOwed, SpaceFullRing, Counts, ScanProgress, PlainSends;
    match a
    case Register(slot, cap) => RegisterKeepsEnding(s, slot, cap);
    case ByPublish(i, op) => PublishKeepsEnding(s, i, op);
    case ByMark(i, op) => MarkKeepsEnding(s, i, op);
    case BySpace(i, op) => SpaceKeepsEnding(s, i, op);
    case ByCollect(op) => CollectKeepsEnding(s, op);
    case ByConsume(i, op) => ConsumeKeepsEnding(s, i, op);
    case BySettle(i, op) => SettleKeepsEnding(s, i, op);
    case ByManage(i, op) => ManageKeepsEnding(s, i, op);
    case ByRequeue(i, op) => RequeueKeepsEnding(s, i, op);
    case ByReceiver(op) => ReceiverKeepsEnding(s, op);
  }

  lemma {:induction false} RunEnding(run: seq<State>, k: nat)
    requires IsRun(run) && k < |run|
    ensures Ending(run[k])
    decreases k
  {
    hide Apply, Enabled, Inv;
    if k > 0 {
      RunEnding(run, k - 1);
      RunInv(run, k - 1);
      assert Next(run[k - 1], run[k - 1 + 1]);
      var a: Step :| Enabled(run[k - 1], a) && run[k] == Apply(run[k - 1], a);
      StepKeepsEnding(run[k - 1], a);
    }
  }

  lemma {:induction false} SomeRegistered(lanes: seq<Lane>) returns (i: nat)
    requires 0 < CountBy(lanes, RegisteredLanes)
    ensures i < |lanes| && !lanes[i].retired
    decreases |lanes|
  {
    if lanes[|lanes| - 1].retired {
      i := SomeRegistered(lanes[..|lanes| - 1]);
    } else {
      i := |lanes| - 1;
    }
  }

  /** With no sender mid-operation, a sleeping receiver leaves no page bit set. */
  lemma NoBitWhileAsleep(run: seq<State>, k: nat)
    requires IsRun(run) && k < |run| && run[k].mode.Sleeping? && SendersQuiet(run[k])
    ensures run[k].bits == {} && run[k].mode.snap == run[k].dataGen
  {
    RunInv(run, k);
    var s := run[k];
    assert s.mode.snap == s.dataGen;
    assert forall sl | sl in s.bits :: Noticed(s, sl);
  }

  /** The last disconnect wakes the receiver: asleep with no sender mid-operation, it
      still has a live sender, or a paused lane holds unread values. */
  lemma AsleepMeansOpen(run: seq<State>, k: nat) returns (i: nat)
    requires IsRun(run) && k < |run| && run[k].mode.Sleeping? && SendersQuiet(run[k])
    ensures 0 < run[k].liveSenders
            || (i < |run[k].lanes| && run[k].lanes[i].paused && run[k].lanes[i].head < run[k].lanes[i].tail)
  {
    RunEnding(run, k);
    RunInv(run, k);
    NoBitWhileAsleep(run, k);
    i := 0;
    var s := run[k];
    if s.liveSenders == 0 {
      i := SomeRegistered(s.lanes);
      CountZero(s.lanes, LiveSenders);
    }
  }
}
