/** Every step keeps the invariant of MPMC lane tokens, and what follows for
    every run. */
module MpmcTokenTheorems {
  import opened Basics
  import opened MpmcTokens

  lemma SenderKeepsMutex(s: State, i: nat, op: SenderOp)
    requires i < |s.lanes| && EnabledSender(s, i, op)
    requires Basic(s) && Mutex(s) && Unique(s)
    ensures var t := ApplySender(s, i, op); Basic(t) && Mutex(t)
  {}

  lemma SenderKeepsUnique(s: State, i: nat, op: SenderOp)
    requires i < |s.lanes| && EnabledSender(s, i, op)
    requires Unique(s) && Placed(s)
    ensures var t := ApplySender(s, i, op); Unique(t) && Placed(t)
  {}

  lemma SenderKeepsData(s: State, i: nat, op: SenderOp)
    requires i < |s.lanes| && EnabledSender(s, i, op)
    requires Basic(s) && Mutex(s) && Unique(s) && Indexed(s) && Data(s)
    ensures var t := ApplySender(s, i, op); Indexed(t) && Data(t)
  {}

  lemma SenderKeepsReadyPages(s: State, i: nat, op: SenderOp)
    requires i < |s.lanes| && EnabledSender(s, i, op)
    requires Mutex(s) && ReadyPages(s)
    ensures ReadyPages(ApplySender(s, i, op))
  {}

  lemma SenderKeepsWorkPages(s: State, i: nat, op: SenderOp)
    requires i < |s.lanes| && EnabledSender(s, i, op)
    requires Mutex(s) && WorkPages(s)
    ensures WorkPages(ApplySender(s, i, op))
  {}

  lemma ReadyKeepsMutex(s: State, r: nat, op: ReadyOp)
    requires r < |s.recvs| && EnabledReady(s, r, op)
    requires Basic(s) && Mutex(s) && Unique(s)
    ensures var t := ApplyReady(s, r, op); Basic(t) && Mutex(t)
  {}

  lemma ReadyKeepsUnique(s: State, r: nat, op: ReadyOp)
    requires r < |s.recvs| && EnabledReady(s, r, op)
    requires Unique(s)
    ensures Unique(ApplyReady(s, r, op))
  {}

  lemma ReadyKeepsPlaced(s: State, r: nat, op: ReadyOp)
    requires r < |s.recvs| && EnabledReady(s, r, op)
    requires Unique(s) && Placed(s)
    ensures Placed(ApplyReady(s, r, op))
  {}

  lemma ReadyKeepsIndexed(s: State, r: nat, op: ReadyOp)
    requires r < |s.recvs| && EnabledReady(s, r, op)
    requires Basic(s) && Mutex(s) && Unique(s) && Indexed(s)
    ensures Indexed(ApplyReady(s, r, op))
  {}

  lemma ReadyKeepsData(s: State, r: nat, op: ReadyOp)
    requires r < |s.recvs| && EnabledReady(s, r, op)
    requires Basic(s) && Mutex(s) && Unique(s) && Data(s)
    ensures Data(ApplyReady(s, r, op))
  {}

  lemma ReadyKeepsReadyPagesClaim(s: State, r: nat, op: ReadyOp)
    requires r < |s.recvs| && EnabledReady(s, r, op)
    requires Mutex(s) && ReadyPages(s)
    requires op.ClaimReady? || op.LockReady? || op.TakeBits?
    ensures ReadyPages(ApplyReady(s, r, op))
  {}

  lemma ReadyKeepsReadyPagesWalk(s: State, r: nat, op: ReadyOp)
    requires r < |s.recvs| && EnabledReady(s, r, op)
    requires Mutex(s) && ReadyPages(s)
    requires !(op.ClaimReady? || op.LockReady? || op.TakeBits?)
    ensures ReadyPages(ApplyReady(s, r, op))
  {}

  lemma ReadyKeepsReadyPages(s: State, r: nat, op: ReadyOp)
    requires r < |s.recvs| && EnabledReady(s, r, op)
    requires Mutex(s) && ReadyPages(s)
    ensures ReadyPages(ApplyReady(s, r, op))
  {
    hide Mutex, ReadyPages, ApplyReady;
    if op.ClaimReady? || op.LockReady? || op.TakeBits? {
      ReadyKeepsReadyPagesClaim(s, r, op);
    } else {
      ReadyKeepsReadyPagesWalk(s, r, op);
    }
  }

  lemma ReadyKeepsWorkPages(s: State, r: nat, op: ReadyOp)
    requires r < |s.recvs| && EnabledReady(s, r, op)
    requires Mutex(s) && WorkPages(s)
    ensures WorkPages(ApplyReady(s, r, op))
  {}

  lemma WorkKeepsMutex(s: State, r: nat, op: WorkOp)
    requires r < |s.recvs| && EnabledWork(s, r, op)
    requires Basic(s) && Mutex(s) && Unique(s)
    ensures var t := ApplyWork(s, r, op); Basic(t) && Mutex(t)
  {}

  lemma WorkKeepsUnique(s: State, r: nat, op: WorkOp)
    requires r < |s.recvs| && EnabledWork(s, r, op)
    requires Unique(s)
    ensures Unique(ApplyWork(s, r, op))
  {}

  lemma WorkKeepsPlaced(s: State, r: nat, op: WorkOp)
    requires r < |s.recvs| && EnabledWork(s, r, op)
    requires Unique(s) && Placed(s)
    ensures Placed(ApplyWork(s, r, op))
  {}

  lemma WorkKeepsData(s: State, r: nat, op: WorkOp)
    requires r < |s.recvs| && EnabledWork(s, r, op)
    requires Basic(s) && Mutex(s) && Unique(s) && Data(s)
    ensures Data(ApplyWork(s, r, op))
  {}

  lemma WorkKeepsIndexed(s: State, r: nat, op: WorkOp)
    requires r < |s.recvs| && EnabledWork(s, r, op)
    requires Basic(s) && Mutex(s) && Unique(s) && Indexed(s)
    ensures Indexed(ApplyWork(s, r, op))
  {}

  lemma WorkKeepsReadyPages(s: State, r: nat, op: WorkOp)
    requires r < |s.recvs| && EnabledWork(s, r, op)
    requires Mutex(s) && ReadyPages(s)
    ensures ReadyPages(ApplyWork(s, r, op))
  {}

  lemma WorkKeepsWorkPages(s: State, r: nat, op: WorkOp)
    requires r < |s.recvs| && EnabledWork(s, r, op)
    requires Mutex(s) && WorkPages(s)
    ensures WorkPages(ApplyWork(s, r, op))
  {}

  lemma HoldKeepsMutex(s: State, r: nat, op: HoldOp)
    requires r < |s.recvs| && EnabledHold(s, r, op)
    requires Basic(s) && Mutex(s) && Unique(s)
    ensures var t := ApplyHold(s, r, op); Basic(t) && Mutex(t)
  {}

  lemma HoldKeepsUniqueEarly(s: State, r: nat, op: HoldOp)
    requires r < |s.recvs| && EnabledHold(s, r, op)
    requires Unique(s)
    requires op.Consume? || op.Requeue? || op.RequeueMark? || op.FinishLock? || op.FinishDrain?
    ensures Unique(ApplyHold(s, r, op))
  {}

  lemma HoldKeepsUniqueLate(s: State, r: nat, op: HoldOp)
    requires r < |s.recvs| && EnabledHold(s, r, op)
    requires Unique(s)
    requires !(op.Consume? || op.Requeue? || op.RequeueMark? || op.FinishLock? || op.FinishDrain?)
    ensures Unique(ApplyHold(s, r, op))
  {}

  lemma HoldKeepsUnique(s: State, r: nat, op: HoldOp)
    requires r < |s.recvs| && EnabledHold(s, r, op)
    requires Unique(s)
    ensures Unique(ApplyHold(s, r, op))
  {
    hide Unique, ApplyHold;
    if op.Consume? || op.Requeue? || op.RequeueMark? || op.FinishLock? || op.FinishDrain? {
      HoldKeepsUniqueEarly(s, r, op);
    } else {
      HoldKeepsUniqueLate(s, r, op);
    }
  }

  lemma HoldKeepsPlacedEarly(s: State, r: nat, op: HoldOp)
    requires r < |s.recvs| && EnabledHold(s, r, op)
    requires Unique(s) && Placed(s)
    requires op.Consume? || op.Requeue? || op.RequeueMark? || op.FinishLock? || op.FinishDrain?
    ensures Placed(ApplyHold(s, r, op))
  {}

  lemma HoldKeepsPlacedLate(s: State, r: nat, op: HoldOp)
    requires r < |s.recvs| && EnabledHold(s, r, op)
    requires Unique(s) && Placed(s)
    requires !(op.Consume? || op.Requeue? || op.RequeueMark? || op.FinishLock? || op.FinishDrain?)
    ensures Placed(ApplyHold(s, r, op))
  {}

  lemma HoldKeepsPlaced(s: State, r: nat, op: HoldOp)
    requires r < |s.recvs| && EnabledHold(s, r, op)
    requires Unique(s) && Placed(s)
    ensures Placed(ApplyHold(s, r, op))
  {
    hide Unique, Placed, ApplyHold;
    if op.Consume? || op.Requeue? || op.RequeueMark? || op.FinishLock? || op.FinishDrain? {
      HoldKeepsPlacedEarly(s, r, op);
    } else {
      HoldKeepsPlacedLate(s, r, op);
    }
  }

  lemma HoldKeepsIndexed(s: State, r: nat, op: HoldOp)
    requires r < |s.recvs| && EnabledHold(s, r, op)
    requires Basic(s) && Mutex(s) && Unique(s) && Indexed(s)
    ensures Indexed(ApplyHold(s, r, op))
  {}

  lemma HoldKeepsDataEarly(s: State, r: nat, op: HoldOp)
    requires r < |s.recvs| && EnabledHold(s, r, op)
    requires Basic(s) && Mutex(s) && Unique(s) && Data(s)
    requires op.Consume? || op.Requeue? || op.RequeueMark? || op.FinishLock? || op.FinishDrain?
    ensures Data(ApplyHold(s, r, op))
  {}

  lemma HoldKeepsDataLate(s: State, r: nat, op: HoldOp)
    requires r < |s.recvs| && EnabledHold(s, r, op)
    requires Basic(s) && Mutex(s) && Unique(s) && Data(s)
    requires !(op.Consume? || op.Requeue? || op.RequeueMark? || op.FinishLock? || op.FinishDrain?)
    ensures Data(ApplyHold(s, r, op))
  {}

  lemma HoldKeepsData(s: State, r: nat, op: HoldOp)
    requires r < |s.recvs| && EnabledHold(s, r, op)
    requires Basic(s) && Mutex(s) && Unique(s) && Data(s)
    ensures Data(ApplyHold(s, r, op))
  {
    hide Basic, Mutex, Unique, Data, ApplyHold;
    if op.Consume? || op.Requeue? || op.RequeueMark? || op.FinishLock? || op.FinishDrain? {
      HoldKeepsDataEarly(s, r, op);
    } else {
      HoldKeepsDataLate(s, r, op);
    }
  }

  lemma HoldKeepsReadyPages(s: State, r: nat, op: HoldOp)
    requires r < |s.recvs| && EnabledHold(s, r, op)
    requires Mutex(s) && ReadyPages(s)
    ensures ReadyPages(ApplyHold(s, r, op))
  {}

  lemma HoldKeepsWorkPagesEarly(s: State, r: nat, op: HoldOp)
    requires r < |s.recvs| && EnabledHold(s, r, op)
    requires Mutex(s) && WorkPages(s)
    requires op.Consume? || op.Requeue? || op.RequeueMark? || op.FinishLock? || op.FinishDrain?
    ensures WorkPages(ApplyHold(s, r, op))
  {}

  lemma HoldKeepsWorkPagesLate(s: State, r: nat, op: HoldOp)
    requires r < |s.recvs| && EnabledHold(s, r, op)
    requires Mutex(s) && WorkPages(s)
    requires !(op.Consume? || op.Requeue? || op.RequeueMark? || op.FinishLock? || op.FinishDrain?)
    ensures WorkPages(ApplyHold(s, r, op))
  {}

  lemma HoldKeepsWorkPages(s: State, r: nat, op: HoldOp)
    requires r < |s.recvs| && EnabledHold(s, r, op)
    requires Mutex(s) && WorkPages(s)
    ensures WorkPages(ApplyHold(s, r, op))
  {
    hide Mutex, WorkPages, ApplyHold;
    if op.Consume? || op.Requeue? || op.RequeueMark? || op.FinishLock? || op.FinishDrain? {
      HoldKeepsWorkPagesEarly(s, r, op);
    } else {
      HoldKeepsWorkPagesLate(s, r, op);
    }
  }

  lemma StepKeepsInv(s: State, a: Step)
    requires Enabled(s, a) && Inv(s)
    ensures Inv(Apply(s, a))
  {
    match a
    case Register(slot) =>
      RegisterKeepsTokens(s, slot);
      RegisterKeepsIndex(s, slot);
      RegisterKeepsPages(s, slot);
    case Clone =>
      CloneKeepsTokens(s);
      CloneKeepsIndex(s);
      CloneKeepsPages(s);
    case BySender(i, op) =>
      SenderKeepsMutex(s, i, op);
      SenderKeepsUnique(s, i, op);
      SenderKeepsData(s, i, op);
      SenderKeepsReadyPages(s, i, op);
      SenderKeepsWorkPages(s, i, op);
    case ByReady(r, op) =>
      ReadyKeepsMutex(s, r, op);
      ReadyKeepsUnique(s, r, op);
      ReadyKeepsPlaced(s, r, op);
      ReadyKeepsIndexed(s, r, op);
      ReadyKeepsData(s, r, op);
      ReadyKeepsReadyPages(s, r, op);
      ReadyKeepsWorkPages(s, r, op);
    case ByWork(r, op) =>
      WorkKeepsMutex(s, r, op);
      WorkKeepsUnique(s, r, op);
      WorkKeepsPlaced(s, r, op);
      WorkKeepsData(s, r, op);
      WorkKeepsIndexed(s, r, op);
      WorkKeepsReadyPages(s, r, op);
      WorkKeepsWorkPages(s, r, op);
    case ByHold(r, op) =>
      HoldKeepsMutex(s, r, op);
      HoldKeepsUnique(s, r, op);
      HoldKeepsPlaced(s, r, op);
      HoldKeepsIndexed(s, r, op);
      HoldKeepsData(s, r, op);
      HoldKeepsReadyPages(s, r, op);
      HoldKeepsWorkPages(s, r, op);
  }

  lemma RegisterKeepsTokens(s: State, slot: Slot)
    requires Enabled(s, Register(slot)) && Basic(s) && Mutex(s) && Unique(s) && Placed(s)
    ensures var t := Apply(s, Register(slot)); Basic(t) && Mutex(t) && Unique(t) && Placed(t)
  {}

  lemma RegisterKeepsIndex(s: State, slot: Slot)
    requires Enabled(s, Register(slot)) && Mutex(s) && Unique(s) && Indexed(s) && Data(s)
    ensures var t := Apply(s, Register(slot)); Indexed(t) && Data(t)
  {}

  lemma RegisterKeepsPages(s: State, slot: Slot)
    requires Enabled(s, Register(slot)) && Unique(s) && ReadyPages(s) && WorkPages(s)
    ensures var t := Apply(s, Register(slot)); ReadyPages(t) && WorkPages(t)
  {}

  lemma CloneKeepsTokens(s: State)
    requires Basic(s) && Mutex(s) && Unique(s) && Placed(s)
    ensures var t := Apply(s, Clone); Basic(t) && Mutex(t) && Unique(t) && Placed(t)
  {}

  lemma CloneKeepsIndex(s: State)
    requires Mutex(s) && Unique(s) && Indexed(s) && Data(s)
    ensures var t := Apply(s, Clone); Indexed(t) && Data(t)
  {}

  lemma CloneKeepsPages(s: State)
    requires Unique(s) && ReadyPages(s) && WorkPages(s)
    ensures var t := Apply(s, Clone); ReadyPages(t) && WorkPages(t)
  {}

  lemma {:induction false} RunInv(run: seq<State>, k: nat)
    requires IsRun(run) && k < |run|
    ensures Inv(run[k])
  {
    if k > 0 {
      RunInv(run, k - 1);
      assert Next(run[k - 1], run[k - 1 + 1]);
      var a: Step :| Enabled(run[k - 1], a) && run[k] == Apply(run[k - 1], a);
      StepKeepsInv(run[k - 1], a);
    }
  }

  // ----------------------------------------------------------------- theorems

  /** Token `i` is with receiver `r`. */
  predicate CarriedBy(s: State, i: nat, r: nat) { r < |s.recvs| && Carried(s.recvs[r]) == i }

  /** Every registered lane has exactly one token: in its registry slot, in its
      page queue, or with exactly one receiver. */
  lemma OneToken(run: seq<State>, k: nat, i: nat)
    requires IsRun(run) && k < |run| && i < |run[k].lanes| && !run[k].lanes[i].retired
    ensures var s := run[k];
            && (i in s.parked || i in s.queued || CarriedBy(s, i, s.lanes[i].holder))
            && !(i in s.parked && i in s.queued)
            && (forall r: nat | CarriedBy(s, i, r) :: i !in s.parked && i !in s.queued && r == s.lanes[i].holder)
  {
    RunInv(run, k);
    var s := run[k];
    forall r: nat | CarriedBy(s, i, r) ensures i !in s.parked && i !in s.queued && r == s.lanes[i].holder {
      assert Carried(s.recvs[r]) == i;
    }
  }

  /** No send and no receive is in progress. */
  predicate Quiet(s: State) {
    && (forall i | 0 <= i < |s.lanes| :: s.lanes[i].pc.Ready?)
    && (forall r | 0 <= r < |s.recvs| :: s.recvs[r].Idle?)
  }

  /** At quiescence every lane with unread values is reachable: queued
      on a page whose work bit is set, or parked with its page bit and the
      page's ready bit set. */
  lemma QuiescentReachable(run: seq<State>, k: nat, i: nat)
    requires IsRun(run) && k < |run| && Quiet(run[k])
    requires i < |run[k].lanes| && !run[k].lanes[i].retired && run[k].lanes[i].head < run[k].lanes[i].tail
    ensures var s := run[k]; var p := s.lanes[i].slot.page;
            || (i in s.queued && p in s.workBits)
            || (i in s.parked && s.lanes[i].slot in s.bits && p in s.readyBits)
  {
    RunInv(run, k);
  }

  function QueueOf(s: State, p: Page): set<nat> {
    set i | i in s.queued && i < |s.lanes| && s.lanes[i].slot.page == p
  }

  lemma {:induction false} FitsBelow(s: State, lanes: set<nat>, p: Page, n: nat)
    requires Basic(s)
    requires forall i | i in lanes ::
      i < |s.lanes| && !s.lanes[i].retired && s.lanes[i].slot.page == p && s.lanes[i].slot.index < n
    ensures |lanes| <= n
  {
    if n == 0 {
      assert forall i :: i !in lanes;
    } else if exists i :: i in lanes && s.lanes[i].slot.index == n - 1 {
      var i :| i in lanes && s.lanes[i].slot.index == n - 1;
      FitsBelow(s, lanes - {i}, p, n - 1);
    } else {
      FitsBelow(s, lanes, p, n - 1);
    }
  }

  /** A page queue has room for every token pushed onto it, so the bounded queue
      of 64 never rejects one. */
  lemma PageQueueFits(run: seq<State>, k: nat, l: nat)
    requires IsRun(run) && k < |run| && l < |run[k].lanes| && !run[k].lanes[l].retired && l !in run[k].queued
    ensures |QueueOf(run[k], run[k].lanes[l].slot.page)| < LANES_PER_PAGE
  {
    RunInv(run, k);
    var s := run[k];
    var p := s.lanes[l].slot.page;
    FitsBelow(s, QueueOf(s, p) + {l}, p, LANES_PER_PAGE);
  }

  /** In particular at both pushes: a walked lane that is not the chosen one, and
      a requeued lane. */
  lemma PushesHaveRoom(run: seq<State>, k: nat, r: nat, l: nat)
    requires IsRun(run) && k < |run| && r < |run[k].recvs|
    requires EnabledReady(run[k], r, WalkPush(l)) || (EnabledHold(run[k], r, Requeue) && l == run[k].recvs[r].lane)
    ensures l < |run[k].lanes| && |QueueOf(run[k], run[k].lanes[l].slot.page)| < LANES_PER_PAGE
  {
    RunInv(run, k);
    PageQueueFits(run, k, l);
  }
}
