/** What the MPSC channel guarantees over every run. */
module MpscTheorems {
  import opened MpscModel
  import opened MpscInvariant
  import opened MpscSteps

  lemma InitInv(cap: nat)
    requires 0 < cap
    ensures Inv(Init(cap))
  {
    var s := Init(cap);
    assert s.lanes[..0] == [];
    assert CountBy(s.lanes, RegisteredLanes) == CountBy([], RegisteredLanes) + 1;
    assert CountBy(s.lanes, LiveSenders) == CountBy([], LiveSenders) + 1;
  }

  lemma StepKeepsInv(s: State, a: Step)
    requires Enabled(s, a) && Inv(s)
    ensures Inv(Apply(s, a))
  {
    hide Inv;
    match a
    case Register(slot, cap) => RegisterKeepsInv(s, slot, cap);
    case ByPublish(i, op) => PublishKeepsInv(s, i, op);
    case ByMark(i, op) => MarkKeepsInv(s, i, op);
    case BySpace(i, op) => SpaceKeepsInv(s, i, op);
    case ByCollect(op) => CollectKeepsInv(s, op);
    case ByConsume(i, op) => ConsumeKeepsInv(s, i, op);
    case BySettle(i, op) => SettleKeepsInv(s, i, op);
    case ByManage(i, op) => ManageKeepsInv(s, i, op);
    case ByRequeue(i, op) => RequeueKeepsInv(s, i, op);
    case ByReceiver(op) => ReceiverKeepsInv(s, op);
  }

  /** Every state of every run satisfies the invariant. */
  lemma {:induction false} RunInv(run: seq<State>, k: nat)
    requires IsRun(run) && k < |run|
    ensures Inv(run[k])
  {
    if k == 0 {
      var cap: nat :| 0 < cap && run[0] == Init(cap);
      InitInv(cap);
    } else {
      RunInv(run, k - 1);
      assert Next(run[k - 1], run[k - 1 + 1]);
      var a: Step :| Enabled(run[k - 1], a) && run[k] == Apply(run[k - 1], a);
      StepKeepsInv(run[k - 1], a);
    }
  }

  // ------------------------------------------------------------- no stranding

  /** The lane holds unread values of completed signaled sends that ordinary
      receives are meant to find. */
  predicate HasSignaled(s: State, i: nat) {
    i < |s.lanes| && !s.lanes[i].retired && !s.lanes[i].paused && s.lanes[i].head < s.lanes[i].signaled
  }

  /** The next collection reaches the page, or some thread still has to act on it. */
  ghost predicate PageReachable(s: State, p: Page) {
    || p in s.groupBits
    || p in s.claimPages
    || (exists j :: 0 <= j < |s.lanes| && s.lanes[j].pc.MarkGroup? && s.lanes[j].slot.page == p)
    || (s.pc.MarkGroupBit? && s.pc.lane < |s.lanes| && s.lanes[s.pc.lane].slot.page == p)
  }

  /** In every state of every run, a lane with signaled unread values is in the
      rotation, being handled by the receiver, about to be indexed by its own
      sender, already claimed by the running collection, or indexed on a page
      that a collection reaches. */
  lemma NoStranding(run: seq<State>, k: nat, i: nat)
    requires IsRun(run) && k < |run| && HasSignaled(run[k], i)
    ensures var s := run[k]; var l := s.lanes[i];
            || l.queued || (Held(s.pc) == i && !IsLeaving(s.pc)) || l.pc.MarkPage?
            || (l.slot in s.claimSlots && (s.pc.Taken? || i < s.known))
            || (l.slot in s.bits && PageReachable(s, l.slot.page))
  {
    RunInv(run, k);
    var s := run[k];
    var p := s.lanes[i].slot.page;
    if s.lanes[i].slot in s.bits && Opening(s, p) {
      assert s.lanes[s.opener[p]].pc.MarkGroup? && s.lanes[s.opener[p]].slot.page == p;
    }
  }

  /** No sender is inside a publication or a notification. */
  predicate SendersQuiet(s: State) {
    forall i | 0 <= i < |s.lanes| ::
      var pc := s.lanes[i].pc;
      !pc.Flushed? && !WillNotify(pc) && !pc.Signal? && !pc.Closing?
  }

  /** With no send and no receive in progress, such a lane is in the rotation or
      its page bit and its group bit are both set. */
  lemma QuiescentReachable(run: seq<State>, k: nat, i: nat)
    requires IsRun(run) && k < |run| && HasSignaled(run[k], i)
    requires SendersQuiet(run[k]) && run[k].pc.Idle?
    ensures var s := run[k]; var l := s.lanes[i];
            l.queued || (l.slot in s.bits && l.slot.page in s.groupBits)
  {
    RunInv(run, k);
  }

  /** Refreshing the registry after claiming a group bit always finds the page. */
  lemma ClaimedPageIsKnown(run: seq<State>, k: nat, p: Page)
    requires IsRun(run) && k < |run| && run[k].pc.Known? && p in run[k].claimPages
    ensures !Enabled(run[k], ByCollect(DropPage(p)))
    ensures Enabled(run[k], ByCollect(TakePage(p)))
  {
    RunInv(run, k);
  }

  // --------------------------------------------------------------- sleeping

  /** No lost wakeup: when the receiver sleeps and no sender is mid-operation,
      no unpaused lane holds an unread signaled value. */
  lemma NoLostWakeup(run: seq<State>, k: nat, i: nat)
    requires IsRun(run) && k < |run| && run[k].mode.Sleeping? && SendersQuiet(run[k])
    ensures !HasSignaled(run[k], i)
  {
    RunInv(run, k);
    var s := run[k];
    assert s.mode.snap == s.dataGen;
    assert forall sl | sl in s.bits :: Noticed(s, sl);
    assert s.bits == {};
  }

  /** A sleeping sender's ring is full against the published head, and open, once
      the receiver has sent the notifications it owes. */
  lemma SleepingSenderIsFull(run: seq<State>, k: nat, i: nat)
    requires IsRun(run) && k < |run| && i < |run[k].lanes| && run[k].lanes[i].pc.Asleep?
    requires i !in run[k].oweSpace && i !in run[k].sigSpace
    ensures var l := run[k].lanes[i]; l.cursor == l.pub + l.cap && !l.closed
  {
    RunInv(run, k);
  }

  /** If the receiver and the sender of an unpaused lane are both asleep with
      nothing in progress, the lane holds values that were never signaled. */
  lemma MutualSleepNeedsUnsignaled(run: seq<State>, k: nat, i: nat)
    requires IsRun(run) && k < |run| && run[k].mode.Sleeping? && SendersQuiet(run[k])
    requires i < |run[k].lanes| && run[k].lanes[i].pc.Asleep?
    requires !run[k].lanes[i].retired && !run[k].lanes[i].paused
    ensures run[k].lanes[i].signaled < run[k].lanes[i].cursor
  {
    RunInv(run, k);
    NoLostWakeup(run, k, i);
    SleepingSenderIsFull(run, k, i);
  }

  /** So a sender that uses only signaled sends is never asleep together with
      the receiver. */
  lemma NoMutualSleep(run: seq<State>, k: nat, i: nat)
    requires IsRun(run) && k < |run| && run[k].mode.Sleeping? && SendersQuiet(run[k])
    requires i < |run[k].lanes| && run[k].lanes[i].plain && !run[k].lanes[i].retired && !run[k].lanes[i].paused
    ensures !run[k].lanes[i].pc.Asleep?
  {
    RunInv(run, k);
    if run[k].lanes[i].pc.Asleep? {
      MutualSleepNeedsUnsignaled(run, k, i);
    }
  }

  // --------------------------------------------------------------- disconnect

  /** What `is_drained` reads before a receive reports Disconnected. */
  predicate SeesDrained(s: State) { s.liveSenders == 0 && s.registered == 0 }

  /** Disconnected is sound: every lane ever registered, adopted or not, paused
      or not, was closed by the receiver or had every value it accepted
      received. */
  lemma DisconnectIsSound(run: seq<State>, k: nat, i: nat)
    requires IsRun(run) && k < |run| && SeesDrained(run[k]) && i < |run[k].lanes|
    ensures var l := run[k].lanes[i]; l.retired && l.dropped && (l.explicit || l.head == l.cursor)
  {
    RunInv(run, k);
    CountZero(run[k].lanes, RegisteredLanes);
    CountZero(run[k].lanes, LiveSenders);
  }

  /** Nothing is left to send or to receive. */
  predicate Ended(s: State) {
    && s.liveSenders == 0 && s.registered == 0 && Held(s.pc) < 0
    && forall i | 0 <= i < |s.lanes| ::
         s.lanes[i].retired && (s.lanes[i].pc.Notify? || s.lanes[i].pc.Signal? || s.lanes[i].pc.Gone?)
  }

  /** No lane was registered, no value accepted and none received. */
  predicate SameTraffic(s: State, t: State) {
    && |t.lanes| == |s.lanes| && t.liveSenders == s.liveSenders && t.registered == s.registered
    && forall i | 0 <= i < |s.lanes| ::
         t.lanes[i].cursor == s.lanes[i].cursor && t.lanes[i].head == s.lanes[i].head
  }

  lemma DrainedIsEnded(run: seq<State>, k: nat)
    requires IsRun(run) && k < |run| && SeesDrained(run[k])
    ensures Ended(run[k])
  {
    RunInv(run, k);
    CountZero(run[k].lanes, RegisteredLanes);
    CountZero(run[k].lanes, LiveSenders);
  }

  lemma EndedSender(s: State, i: nat, op: MarkOp)
    requires Ended(s) && i < |s.lanes| && EnabledMark(s, i, op)
    ensures SameTraffic(s, ApplyMark(s, i, op))
  {}

  lemma EndedConsume(s: State, i: nat, op: ConsumeOp)
    requires Ended(s) && i < |s.lanes| && EnabledConsume(s, i, op)
    ensures SameTraffic(s, ApplyConsume(s, i, op))
  {}

  lemma EndedCollect(s: State, op: CollectOp)
    requires Ended(s) && EnabledCollect(s, op)
    ensures SameTraffic(s, ApplyCollect(s, op))
  {}

  lemma EndedReceiver(s: State, op: WaitOp)
    requires Ended(s) && EnabledReceiver(s, op)
    ensures SameTraffic(s, ApplyReceiver(s, op))
  {}

  lemma EndedDisables(s: State, a: Step)
    requires Ended(s)
    requires a.Register? || a.ByPublish? || a.BySpace? || a.BySettle? || a.ByManage? || a.ByRequeue?
    ensures !Enabled(s, a)
  {}

  /** And final: from then on no step registers a lane, accepts a value or
      receives one. */
  lemma DisconnectIsFinal(run: seq<State>, k: nat, a: Step)
    requires IsRun(run) && k < |run| && SeesDrained(run[k]) && Enabled(run[k], a)
    ensures SameTraffic(run[k], Apply(run[k], a))
  {
    var s := run[k];
    DrainedIsEnded(run, k);
    match a
    case ByMark(i, op) => EndedSender(s, i, op);
    case ByConsume(i, op) => EndedConsume(s, i, op);
    case ByCollect(op) => EndedCollect(s, op);
    case ByReceiver(op) => EndedReceiver(s, op);
    case _ => EndedDisables(s, a);
  }

  // --------------------------------------------------------------------- scan

  /** A scan that ends with an empty rotation observed every lane it started
      with as empty, and received everything those lanes had published when it
      started, signaled or not, while sends were running. */
  lemma ScanIsComplete(run: seq<State>, k: nat, i: nat)
    requires IsRun(run) && k < |run| && run[k].scanning && NothingQueued(run[k]) && i in run[k].scanSet
    ensures i in run[k].seenEmpty && i < |run[k].lanes| && run[k].scanSet[i] <= run[k].lanes[i].head
  {
    RunInv(run, k);
  }
}
