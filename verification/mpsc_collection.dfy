/** What a collection finds, and when a lane in the rotation is pending. */
module MpscCollection {
  import opened MpscModel
  import opened MpscInvariant
  import opened MpscTheorems

  // ------------------------------------------------------- queued and pending

  /** The lane is in the rotation without being pending, and the receiver is not
      just settling it. */
  predicate Unpended(s: State, i: nat) {
    i < |s.lanes| && s.lanes[i].queued && !s.lanes[i].pending && s.pc != Rechecking(i) && s.pc != Claiming(i)
  }

  predicate PollsAll(a: Step) { a == ByReceiver(PollAll) || a == ByReceiver(ScanStart) }

  /** Polling all lanes is about to queue this lane, which is not pending. */
  predicate AboutToPoll(s: State, i: nat) {
    i < |s.lanes| && !s.lanes[i].queued && !s.lanes[i].pending && !s.lanes[i].retired && !s.lanes[i].paused
  }

  /** A lane the receiver is putting back is pending from its swap on. */
  predicate Requeued(s: State) {
    s.pc.MarkPageBit? || s.pc.MarkGroupBit? || s.pc.Queueing? ==>
      s.pc.lane < |s.lanes| && s.lanes[s.pc.lane].pending
  }

  /** The step queued no lane that is not pending, unless it polled all lanes. */
  ghost predicate Honest(s: State, t: State, polls: bool) {
    && Requeued(t)
    && forall i :: Unpended(t, i) ==> Unpended(s, i) || (polls && AboutToPoll(s, i))
  }

  lemma PublishIsHonest(s: State, i: nat, op: PublishOp)
    requires i < |s.lanes| && EnabledPublish(s, i, op) && Requeued(s)
    ensures Honest(s, ApplyPublish(s, i, op), false)
  {
  }

  lemma MarkIsHonest(s: State, i: nat, op: MarkOp)
    requires i < |s.lanes| && EnabledMark(s, i, op) && Requeued(s)
    ensures Honest(s, ApplyMark(s, i, op), false)
  {
  }

  lemma SpaceIsHonest(s: State, i: nat, op: SpaceOp)
    requires i < |s.lanes| && EnabledSpace(s, i, op) && Requeued(s)
    ensures Honest(s, ApplySpace(s, i, op), false)
  {
  }

  lemma CollectIsHonest(s: State, op: CollectOp)
    requires EnabledCollect(s, op) && Requeued(s)
    ensures Honest(s, ApplyCollect(s, op), false)
  {
  }

  lemma ConsumeIsHonest(s: State, i: nat, op: ConsumeOp)
    requires i < |s.lanes| && EnabledConsume(s, i, op) && Requeued(s)
    ensures Honest(s, ApplyConsume(s, i, op), false)
  {
  }

  lemma SettleIsHonest(s: State, i: nat, op: SettleOp)
    requires i < |s.lanes| && EnabledSettle(s, i, op) && Requeued(s)
    ensures Honest(s, ApplySettle(s, i, op), false)
  {
  }

  lemma ManageIsHonest(s: State, i: nat, op: ManageOp)
    requires i < |s.lanes| && EnabledManage(s, i, op) && Requeued(s)
    ensures Honest(s, ApplyManage(s, i, op), false)
  {
  }

  lemma RequeueIsHonest(s: State, i: nat, op: RequeueOp)
    requires i < |s.lanes| && EnabledRequeue(s, i, op) && Requeued(s)
    ensures Honest(s, ApplyRequeue(s, i, op), false)
  {
  }

  lemma ReceiverIsHonest(s: State, op: WaitOp)
    requires EnabledReceiver(s, op) && Requeued(s)
    ensures Honest(s, ApplyReceiver(s, op), op.PollAll? || op.ScanStart?)
  {
  }

  lemma RegisterIsHonest(s: State, slot: Slot, cap: nat)
    requires Enabled(s, Register(slot, cap)) && Requeued(s)
    ensures Honest(s, Apply(s, Register(slot, cap)), false)
  {
  }

  lemma StepIsHonest(s: State, a: Step)
    requires Enabled(s, a) && Requeued(s)
    ensures Honest(s, Apply(s, a), PollsAll(a))
  {
    hide Honest;
    match a
    case Register(slot, cap) => RegisterIsHonest(s, slot, cap);
    case ByPublish(i, op) => PublishIsHonest(s, i, op);
    case ByMark(i, op) => MarkIsHonest(s, i, op);
    case BySpace(i, op) => SpaceIsHonest(s, i, op);
    case ByCollect(op) => CollectIsHonest(s, op);
    case ByConsume(i, op) => ConsumeIsHonest(s, i, op);
    case BySettle(i, op) => SettleIsHonest(s, i, op);
    case ByManage(i, op) => ManageIsHonest(s, i, op);
    case ByRequeue(i, op) => RequeueIsHonest(s, i, op);
    case ByReceiver(op) => ReceiverIsHonest(s, op);
  }

  ghost predicate Polled(s: State, t: State) {
    exists a: Step :: PollsAll(a) && Enabled(s, a) && t == Apply(s, a)
  }

  lemma {:induction false} RunRequeued(run: seq<State>, k: nat)
    requires IsRun(run) && k < |run|
    ensures Requeued(run[k])
    decreases k
  {
    hide Apply, Enabled;
    if k > 0 {
      RunRequeued(run, k - 1);
      assert Next(run[k - 1], run[k - 1 + 1]);
      var a: Step :| Enabled(run[k - 1], a) && run[k] == Apply(run[k - 1], a);
      StepIsHonest(run[k - 1], a);
    }
  }

  /** A lane is in the rotation without being pending, and not being settled, only
      since some poll of all lanes queued it that way. */
  lemma {:induction false} UnpendedComesFromPollAll(run: seq<State>, k: nat, i: nat) returns (j: nat)
    requires IsRun(run) && k < |run| && Unpended(run[k], i)
    ensures j < k && Polled(run[j], run[j + 1]) && AboutToPoll(run[j], i)
    ensures forall m :: j < m <= k ==> Unpended(run[m], i)
    decreases k
  {
    hide Apply, Enabled;
    if k == 0 {
      InitIsPended(run, i);
      assert false;
    }
    RunRequeued(run, k - 1);
    assert Next(run[k - 1], run[k - 1 + 1]);
    var a: Step :| Enabled(run[k - 1], a) && run[k] == Apply(run[k - 1], a);
    StepIsHonest(run[k - 1], a);
    if Unpended(run[k - 1], i) {
      j := UnpendedComesFromPollAll(run, k - 1, i);
    } else {
      j := k - 1;
    }
  }

  lemma InitIsPended(run: seq<State>, i: nat)
    requires IsRun(run)
    ensures !Unpended(run[0], i)
  {
  }

  /** So in a run without such polls, a lane in the rotation is pending unless the
      receiver is just settling it. */
  lemma QueuedIsPending(run: seq<State>, k: nat, i: nat)
    requires IsRun(run) && k < |run| && i < |run[k].lanes| && run[k].lanes[i].queued
    requires forall j :: 0 <= j < k ==> !Polled(run[j], run[j + 1])
    ensures run[k].lanes[i].pending || run[k].pc == Rechecking(i) || run[k].pc == Claiming(i)
  {
    if Unpended(run[k], i) {
      var j := UnpendedComesFromPollAll(run, k, i);
    }
  }

  /** And every such poll does queue each lane it finds idle without marking it. */
  lemma PollAllUnpends(s: State, a: Step, i: nat)
    requires PollsAll(a) && Enabled(s, a) && AboutToPoll(s, i)
    ensures Unpended(Apply(s, a), i)
  {
  }

  // --------------------------------------------------- what a collection finds

  /** The lane is in the rotation, or it is pending and the running collection has
      its bits in hand or still ahead of it. */
  predicate Ahead(s: State, i: nat) {
    && i < |s.lanes| && !s.lanes[i].retired && !s.lanes[i].paused
    && (s.lanes[i].queued || (s.lanes[i].pending && InSight(s, i, s.lanes[i].slot)))
  }

  predicate InSight(s: State, i: nat, sl: Slot) {
    || (sl in s.claimSlots && (s.pc.Taken? || (s.pc.Lanes? && i < s.known)))
    || (sl in s.bits && (sl.page in s.claimPages || (sl.page in s.groupBits && sl.page.group in s.todo)))
  }

  lemma AheadAfterPublish(s: State, j: nat, op: PublishOp, i: nat)
    requires j < |s.lanes| && EnabledPublish(s, j, op) && Ahead(s, i)
    ensures Ahead(ApplyPublish(s, j, op), i)
  {
  }

  lemma AheadAfterMark(s: State, j: nat, op: MarkOp, i: nat)
    requires j < |s.lanes| && EnabledMark(s, j, op) && Ahead(s, i)
    ensures Ahead(ApplyMark(s, j, op), i)
  {
  }

  lemma AheadAfterSpace(s: State, j: nat, op: SpaceOp, i: nat)
    requires j < |s.lanes| && EnabledSpace(s, j, op) && Ahead(s, i)
    ensures Ahead(ApplySpace(s, j, op), i)
  {
  }

  lemma AheadAfterCollect(s: State, op: CollectOp, i: nat)
    requires EnabledCollect(s, op) && Basic(s) && Distinct(s) && Index(s) && Control(s)
    requires Collecting(s.pc) && Ahead(s, i) && (op.CollectEnd? ==> s.todo == {})
    ensures Ahead(ApplyCollect(s, op), i)
  {
  }

  lemma AheadAfterRegister(s: State, slot: Slot, cap: nat, i: nat)
    requires Enabled(s, Register(slot, cap)) && Ahead(s, i)
    ensures Ahead(Apply(s, Register(slot, cap)), i)
  {
  }

  lemma AheadAfterConsume(s: State, j: nat, op: ConsumeOp, i: nat)
    requires j < |s.lanes| && EnabledConsume(s, j, op) && Collecting(s.pc) && Ahead(s, i)
    ensures Ahead(ApplyConsume(s, j, op), i)
  {
  }

  /** While it collects, the receiver does nothing else to its lanes. */
  lemma CollectingDisables(s: State, a: Step)
    requires Basic(s) && Control(s) && Collecting(s.pc)
    requires a.BySettle? || a.ByManage? || a.ByRequeue? || a.ByReceiver?
    ensures !Enabled(s, a)
  {
  }

  lemma StepKeepsAhead(s: State, a: Step, i: nat)
    requires Inv(s) && Enabled(s, a) && Collecting(s.pc) && Ahead(s, i)
    requires Apply(s, a).pc.Idle? ==> Apply(s, a).todo == {}
    ensures Ahead(Apply(s, a), i)
  {
    hide Ahead, Basic, Life, Distinct, Index, Control, Owed, Token, Data, Credit, Pages, Wakeup;
    hide SpaceOwed, SpaceFullRing, Counts, ScanProgress, PlainSends;
    match a
    case Register(slot, cap) => AheadAfterRegister(s, slot, cap, i);
    case ByPublish(j, op) => AheadAfterPublish(s, j, op, i);
    case ByMark(j, op) => AheadAfterMark(s, j, op, i);
    case BySpace(j, op) => AheadAfterSpace(s, j, op, i);
    case ByCollect(op) => AheadAfterCollect(s, op, i);
    case ByConsume(j, op) => AheadAfterConsume(s, j, op, i);
    case _ => CollectingDisables(s, a);
  }

  /** No sender of the page has made it non-empty and still to set its group bit,
      and the lane's own sender has no page bit left to set. */
  predicate PageSettled(s: State, i: nat)
    requires i < |s.lanes|
  {
    && !s.lanes[i].pc.MarkPage?
    && forall j | 0 <= j < |s.lanes| && s.lanes[j].slot.page == s.lanes[i].slot.page :: !s.lanes[j].pc.MarkGroup?
  }

  /** A collection that starts when no sender of the page is between its page bit
      and its group bit has the lane ahead of it. */
  lemma SettledPageIsAhead(run: seq<State>, k: nat, i: nat)
    requires IsRun(run) && k < |run| && HasSignaled(run[k], i) && PageSettled(run[k], i)
    requires Enabled(run[k], ByCollect(CollectStart))
    ensures Ahead(Apply(run[k], ByCollect(CollectStart)), i)
  {
    RunInv(run, k);
    var s := run[k];
    var l := s.lanes[i];
    if !l.queued {
      assert l.pending && l.slot in s.bits && !Opening(s, l.slot.page);
      assert l.slot.page in s.pageLane;
    }
  }

  /** The run collects from `k` to `m`, and the collection visits every group. */
  predicate FullCollection(run: seq<State>, k: nat, m: nat) {
    && k < m < |run| && run[m].pc.Idle? && run[m].todo == {}
    && forall j | k <= j < m :: Collecting(run[j].pc)
  }

  lemma {:induction false} StaysAhead(run: seq<State>, k: nat, m: nat, j: nat, i: nat)
    requires IsRun(run) && FullCollection(run, k, m) && k <= j <= m && Ahead(run[k], i)
    ensures Ahead(run[j], i)
    decreases j
  {
    hide Ahead, Apply, Enabled, Inv;
    if k < j {
      StaysAhead(run, k, m, j - 1, i);
      RunInv(run, j - 1);
      assert Next(run[j - 1], run[j - 1 + 1]);
      var a: Step :| Enabled(run[j - 1], a) && run[j] == Apply(run[j - 1], a);
      StepKeepsAhead(run[j - 1], a, i);
    }
  }

  /** Whatever senders do meanwhile, a full collection queues every lane that was
      ahead of it. */
  lemma FullCollectionFinds(run: seq<State>, k: nat, m: nat, i: nat)
    requires IsRun(run) && FullCollection(run, k, m) && Ahead(run[k], i)
    ensures i < |run[m].lanes| && run[m].lanes[i].queued
  {
    StaysAhead(run, k, m, m, i);
    RunInv(run, m);
  }
}
