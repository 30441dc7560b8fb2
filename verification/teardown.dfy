/** Coordinated teardown of one ring: the closing receiver and a send in flight
    agree, through two state bits and a mutex-guarded slot, on who destroys the
    unread values. Each atomic operation, lock and ring call is one step. */
module Teardown {

  /** A send. `accepted` says whether the ring took the value. */
  datatype SenderPc<T> =
    | Idle
    | Began(value: T)
    | Pushed
    | Ending(accepted: bool)
    | Locking
    | Taking
    | Unlocking
    | Loading
    | Discarding

  /** The receiving side: open, the drain before the handoff, the handoff under the
      mutex, and the drain after it. */
  datatype CloserPc =
    | Open
    | Loading1
    | Discarding1
    | Lock
    | Offer
    | Announce
    | Decide(overlapped: bool)
    | Unlock(mine: bool)
    | Loading2
    | Discarding2
    | Done

  /** Where the ring's consumer is. */
  datatype Place = WithCloser | InSlot | WithSender | Gone

  datatype State<T> = State(
    cap: nat,
    active: bool,
    closed: bool,
    pushed: seq<T>,
    sent: nat,
    seen: nat,
    freed: nat,
    received: seq<T>,
    destroyed: seq<T>,
    offered: seq<T>,
    returned: seq<T>,
    place: Place,
    senderLocks: bool,
    closerLocks: bool,
    sender: SenderPc<T>,
    closer: CloserPc)
  {
    function Taken(): nat { |received| + |destroyed| }
  }

  ghost predicate Init<T>(s: State<T>) {
    s == State(s.cap, false, false, [], 0, 0, 0, [], [], [], [], WithCloser, false, false, Idle, Open)
  }

  datatype SenderOp<T> =
    | Begin(value: T)
    | Refuse(value: T)
    | Push
    | Full
    | Flush
    | EndOpen
    | EndClosed
    | SenderLock
    | SenderTake
    | SenderMiss
    | SenderUnlock
    | SenderLoad
    | SenderPop
    | SenderDrop

  datatype CloserOp =
    | Prefetch
    | Receive
    | Release
    | Close
    | Load1
    | Pop1
    | Drained1
    | TakeLock
    | PutSlot
    | SetClosed
    | TakeBack
    | LeaveIt
    | DropLock
    | Load2
    | Pop2
    | Finish

  predicate SenderEnabled<T>(s: State<T>, op: SenderOp<T>) {
    match op
    case Begin(_) => s.sender.Idle? && !s.active && !s.closed
    case Refuse(_) => s.sender.Idle? && (s.active || s.closed)
    case Push => s.sender.Began? && |s.pushed| < s.freed + s.cap
    case Full => s.sender.Began? && |s.pushed| >= s.freed + s.cap
    case Flush => s.sender.Pushed?
    case EndOpen => s.sender.Ending? && !s.closed
    case EndClosed => s.sender.Ending? && s.closed
    case SenderLock => s.sender.Locking? && !s.closerLocks
    case SenderTake => s.sender.Taking? && s.place == InSlot
    case SenderMiss => s.sender.Taking? && s.place != InSlot
    case SenderUnlock => s.sender.Unlocking?
    case SenderLoad => s.sender.Loading?
    case SenderPop => s.sender.Discarding? && s.Taken() < s.seen && s.seen <= |s.pushed|
    case SenderDrop => s.sender.Discarding? && s.Taken() == s.seen
  }

  function SenderApply<T>(s: State<T>, op: SenderOp<T>): State<T>
    requires SenderEnabled(s, op)
  {
    match op
    case Begin(v) => s.(active := true, offered := s.offered + [v], sender := Began(v))
    case Refuse(v) => s.(offered := s.offered + [v], returned := s.returned + [v])
    case Push => s.(pushed := s.pushed + [s.sender.value], sender := SenderPc.Pushed)
    case Full => s.(returned := s.returned + [s.sender.value], sender := Ending(false))
    case Flush => s.(sent := |s.pushed|, sender := Ending(true))
    case EndOpen => s.(active := false, sender := Idle)
    case EndClosed => s.(active := false, sender := Locking)
    case SenderLock => s.(senderLocks := true, sender := Taking)
    case SenderTake => s.(place := WithSender, sender := Unlocking)
    case SenderMiss => s.(sender := Unlocking)
    case SenderUnlock => s.(senderLocks := false, sender := if s.place == WithSender then Loading else Idle)
    case SenderLoad => s.(seen := s.sent, sender := Discarding)
    case SenderPop => s.(destroyed := s.destroyed + [s.pushed[s.Taken()]])
    case SenderDrop => s.(freed := s.Taken(), place := Gone, sender := Idle)
  }

  predicate CloserEnabled<T>(s: State<T>, op: CloserOp) {
    match op
    case Prefetch => s.closer.Open?
    case Receive => s.closer.Open? && s.Taken() < s.seen && s.seen <= |s.pushed|
    case Release => s.closer.Open?
    case Close => s.closer.Open?
    case Load1 => s.closer.Loading1?
    case Pop1 => s.closer.Discarding1? && s.Taken() < s.seen && s.seen <= |s.pushed|
    case Drained1 => s.closer.Discarding1? && s.Taken() == s.seen
    case TakeLock => s.closer.Lock? && !s.senderLocks
    case PutSlot => s.closer.Offer?
    case SetClosed => s.closer.Announce?
    case TakeBack => s.closer.Decide? && !s.closer.overlapped
    case LeaveIt => s.closer.Decide? && s.closer.overlapped
    case DropLock => s.closer.Unlock?
    case Load2 => s.closer.Loading2?
    case Pop2 => s.closer.Discarding2? && s.Taken() < s.seen && s.seen <= |s.pushed|
    case Finish => s.closer.Discarding2? && s.Taken() == s.seen
  }

  function CloserApply<T>(s: State<T>, op: CloserOp): State<T>
    requires CloserEnabled(s, op)
  {
    match op
    case Prefetch => s.(seen := s.sent)
    case Receive => s.(received := s.received + [s.pushed[s.Taken()]])
    case Release => s.(freed := s.Taken())
    case Close => s.(closer := Loading1)
    case Load1 => s.(seen := s.sent, closer := Discarding1)
    case Pop1 => s.(destroyed := s.destroyed + [s.pushed[s.Taken()]])
    case Drained1 => s.(closer := Lock)
    case TakeLock => s.(closerLocks := true, closer := Offer)
    case PutSlot => s.(place := InSlot, closer := Announce)
    case SetClosed => s.(closed := true, closer := Decide(s.active))
    case TakeBack => s.(place := WithCloser, closer := Unlock(true))
    case LeaveIt => s.(closer := Unlock(false))
    case DropLock => s.(closerLocks := false, closer := if s.closer.mine then Loading2 else Done)
    case Load2 => s.(seen := s.sent, closer := Discarding2)
    case Pop2 => s.(destroyed := s.destroyed + [s.pushed[s.Taken()]])
    case Finish => s.(freed := s.Taken(), place := Gone, closer := Done)
  }

  datatype Step<T> = SenderStep(send: SenderOp<T>) | CloserStep(close: CloserOp)

  predicate Enabled<T>(s: State<T>, step: Step<T>) {
    if step.SenderStep? then SenderEnabled(s, step.send) else CloserEnabled(s, step.close)
  }

  function Apply<T>(s: State<T>, step: Step<T>): State<T>
    requires Enabled(s, step)
  {
    if step.SenderStep? then SenderApply(s, step.send) else CloserApply(s, step.close)
  }

  ghost predicate Next<T(!new)>(s: State<T>, t: State<T>) {
    exists step: Step<T> :: Enabled(s, step) && t == Apply(s, step)
  }

  ghost predicate IsRun<T(!new)>(run: seq<State<T>>) {
    && run != [] && Init(run[0])
    && forall i :: 0 <= i < |run| - 1 ==> Next(run[i], run[i + 1])
  }

  // The invariant

  /** The values taken, received first and destroyed after, are a prefix of those
      pushed, and a send between push and flush has published all but one. */
  ghost predicate Ring<T>(s: State<T>) {
    && s.received + s.destroyed <= s.pushed
    && s.freed <= s.Taken() <= s.seen <= s.sent <= |s.pushed|
    && |s.pushed| == s.sent + (if s.sender.Pushed? then 1 else 0)
    && (s.closer.Open? ==> s.destroyed == [])
  }

  predicate Sending<T>(s: State<T>) { s.sender.Began? || s.sender.Pushed? || s.sender.Ending? }

  predicate SenderCleans<T>(s: State<T>) {
    s.sender.Locking? || s.sender.Taking? || s.sender.Unlocking? || s.sender.Loading? || s.sender.Discarding?
  }

  predicate HoldsLock(c: CloserPc) { c.Offer? || c.Announce? || c.Decide? || c.Unlock? }

  /** The state bits and the mutex say where both sides are. */
  ghost predicate Control<T>(s: State<T>) {
    && s.active == Sending(s)
    && s.closed == (s.closer.Decide? || s.closer.Unlock? || s.closer.Loading2? || s.closer.Discarding2? || s.closer.Done?)
    && s.closerLocks == HoldsLock(s.closer)
    && s.senderLocks == (s.sender.Taking? || s.sender.Unlocking?)
    && !(s.closerLocks && s.senderLocks)
    && (SenderCleans(s) ==> s.closed)
  }

  predicate BeforeOffer(c: CloserPc) { c.Open? || c.Loading1? || c.Discarding1? || c.Lock? || c.Offer? }

  predicate Mine(c: CloserPc) { c == Unlock(true) || c.Loading2? || c.Discarding2? }

  /** The send that was active at the close has the handoff exactly until it takes
      the consumer. */
  ghost predicate Handoff<T>(s: State<T>) {
    && (s.place == WithCloser <==> (BeforeOffer(s.closer) || Mine(s.closer)))
    && (s.closer.Announce? || s.closer.Decide? || s.closer == Unlock(false) ==> s.place == InSlot)
    && (s.place == InSlot && s.closed && s.closer != Decide(false) ==>
          Sending(s) || s.sender.Locking? || s.sender.Taking?)
    && (s.closer == Decide(false) || Mine(s.closer) ==> !Sending(s) && !SenderCleans(s))
    && (s.sender.Locking? || s.sender.Taking? ==> s.place == InSlot)
    && (s.place == WithSender <==> (s.sender.Unlocking? || s.sender.Loading? || s.sender.Discarding?))
    && (s.place == Gone ==> s.closer.Done? && !Sending(s) && !SenderCleans(s))
  }

  /** Once nobody can publish any more, the last drain has everything. */
  ghost predicate Drains<T>(s: State<T>) {
    && (s.closer.Discarding2? || s.sender.Discarding? ==> s.seen == |s.pushed|)
    && (s.place == Gone ==> s.Taken() == |s.pushed|)
  }

  /** Every value offered was accepted or given back, or is still being sent. */
  ghost predicate Accounted<T>(s: State<T>) {
    multiset(s.offered) == multiset(s.pushed) + multiset(s.returned) +
                           (if s.sender.Began? then multiset{s.sender.value} else multiset{})
  }

  ghost predicate Inv<T>(s: State<T>) { Ring(s) && Control(s) && Handoff(s) && Drains(s) && Accounted(s) }

  lemma InitInv<T>(s: State<T>)
    requires Init(s)
    ensures Inv(s)
  {
  }

  lemma SenderKeepsRing<T>(s: State<T>, op: SenderOp<T>)
    requires Inv(s) && SenderEnabled(s, op)
    ensures Ring(SenderApply(s, op))
  {
  }

  lemma SenderKeepsControl<T>(s: State<T>, op: SenderOp<T>)
    requires Control(s) && Handoff(s) && SenderEnabled(s, op)
    ensures Control(SenderApply(s, op))
  {
  }

  lemma SenderKeepsHandoff<T>(s: State<T>, op: SenderOp<T>)
    requires Control(s) && Handoff(s) && SenderEnabled(s, op)
    ensures Handoff(SenderApply(s, op))
  {
  }

  lemma SenderKeepsDrains<T>(s: State<T>, op: SenderOp<T>)
    requires Inv(s) && SenderEnabled(s, op)
    ensures Drains(SenderApply(s, op))
  {
  }

  lemma CloserKeepsRing<T>(s: State<T>, op: CloserOp)
    requires Inv(s) && CloserEnabled(s, op)
    ensures Ring(CloserApply(s, op))
  {
  }

  lemma CloserKeepsControl<T>(s: State<T>, op: CloserOp)
    requires Control(s) && CloserEnabled(s, op)
    ensures Control(CloserApply(s, op))
  {
  }

  lemma CloserKeepsHandoff<T>(s: State<T>, op: CloserOp)
    requires Control(s) && Handoff(s) && CloserEnabled(s, op)
    ensures Handoff(CloserApply(s, op))
  {
  }

  lemma CloserKeepsDrains<T>(s: State<T>, op: CloserOp)
    requires Inv(s) && CloserEnabled(s, op)
    ensures Drains(CloserApply(s, op))
  {
  }

  lemma SenderKeepsAccounted<T>(s: State<T>, op: SenderOp<T>)
    requires Accounted(s) && SenderEnabled(s, op)
    ensures Accounted(SenderApply(s, op))
  {
  }

  lemma StepKeepsInv<T>(s: State<T>, step: Step<T>)
    requires Inv(s) && Enabled(s, step)
    ensures Inv(Apply(s, step))
  {
    hide Ring, Control, Handoff, Drains, SenderApply, CloserApply, Accounted;
    match step
    case SenderStep(op) =>
      SenderKeepsRing(s, op);
      SenderKeepsControl(s, op);
      SenderKeepsHandoff(s, op);
      SenderKeepsDrains(s, op);
      SenderKeepsAccounted(s, op);
    case CloserStep(op) =>
      CloserKeepsRing(s, op);
      CloserKeepsControl(s, op);
      CloserKeepsHandoff(s, op);
      CloserKeepsDrains(s, op);
      CloserKeepsAccounted(s, op);
  }

  lemma CloserKeepsAccounted<T>(s: State<T>, op: CloserOp)
    requires Accounted(s) && CloserEnabled(s, op)
    ensures Accounted(CloserApply(s, op))
  {
  }

  lemma {:induction false} RunInv<T(!new)>(run: seq<State<T>>, k: nat)
    requires IsRun(run) && k < |run|
    ensures Inv(run[k])
    decreases k
  {
    hide Inv, Apply, Enabled;
    if k == 0 {
      InitInv(run[0]);
    } else {
      RunInv(run, k - 1);
      assert Next(run[k - 1], run[k - 1 + 1]);
      var step: Step<T> :| Enabled(run[k - 1], step) && run[k] == Apply(run[k - 1], step);
      StepKeepsInv(run[k - 1], step);
    }
  }

  /** When the receiver is done and no send is under way, everything accepted was
      received or destroyed, in order and once, and every other value offered was
      given back to its caller. */
  lemma EverythingReclaimed<T(!new)>(run: seq<State<T>>, k: nat)
    requires IsRun(run) && k < |run| && run[k].closer.Done? && run[k].sender.Idle?
    ensures run[k].received + run[k].destroyed == run[k].pushed && run[k].place == Gone
    ensures multiset(run[k].offered) == multiset(run[k].received) + multiset(run[k].destroyed) + multiset(run[k].returned)
  {
    RunInv(run, k);
    assert run[k].received + run[k].destroyed == run[k].pushed;
  }

  /** Exactly one side ever drains after the handoff. */
  lemma OneSideCleans<T(!new)>(run: seq<State<T>>, k: nat)
    requires IsRun(run) && k < |run|
    ensures !(Mine(run[k].closer) && SenderCleans(run[k]))
    ensures run[k].place == Gone ==> !Mine(run[k].closer) && !SenderCleans(run[k])
  {
    RunInv(run, k);
  }

  // What later steps keep

  ghost predicate Over<T>(s: State<T>, pushed: seq<T>) { Inv(s) && s.closed && !s.active && s.pushed == pushed }

  lemma OverStays<T>(s: State<T>, step: Step<T>, pushed: seq<T>)
    requires Over(s, pushed) && Enabled(s, step)
    ensures Over(Apply(s, step), pushed)
  {
    StepKeepsInv(s, step);
  }

  /** After CLOSED is set and the overlapping send, if any, has ended, no later send
      gets a value in. */
  lemma {:induction false} NoSendAfterClose<T(!new)>(run: seq<State<T>>, i: nat, k: nat)
    requires IsRun(run) && i <= k < |run| && run[i].closed && !run[i].active
    ensures run[k].closed && !run[k].active && run[k].pushed == run[i].pushed
    decreases k
  {
    hide Inv, Apply, Enabled;
    if i < k {
      NoSendAfterClose(run, i, k - 1);
      RunInv(run, k - 1);
      assert Next(run[k - 1], run[k - 1 + 1]);
      var step: Step<T> :| Enabled(run[k - 1], step) && run[k] == Apply(run[k - 1], step);
      OverStays(run[k - 1], step, run[i].pushed);
    }
  }

  lemma CreditStays<T>(s: State<T>, step: Step<T>)
    requires Inv(s) && Enabled(s, step) && !s.closer.Open?
    ensures var t := Apply(s, step); !t.closer.Open? && (t.place != Gone ==> t.freed == s.freed && s.place != Gone)
  {
  }

  /** Closing frees no slot until the consumer is dropped: a send in flight that
      found the ring full cannot succeed because the receiver is closing. */
  lemma {:induction false} ClosingFreesNothing<T(!new)>(run: seq<State<T>>, i: nat, k: nat)
    requires IsRun(run) && i <= k < |run| && !run[i].closer.Open? && run[k].place != Gone
    ensures run[k].freed == run[i].freed && !run[k].closer.Open?
    decreases k
  {
    hide Inv, Apply, Enabled;
    if i < k {
      RunInv(run, k - 1);
      assert Next(run[k - 1], run[k - 1 + 1]);
      var step: Step<T> :| Enabled(run[k - 1], step) && run[k] == Apply(run[k - 1], step);
      StaysClosing(run, i, k - 1);
      CreditStays(run[k - 1], step);
      ClosingFreesNothing(run, i, k - 1);
    }
  }

  lemma {:induction false} StaysClosing<T(!new)>(run: seq<State<T>>, i: nat, k: nat)
    requires IsRun(run) && i <= k < |run| && !run[i].closer.Open?
    ensures !run[k].closer.Open?
    decreases k
  {
    hide Inv, Apply, Enabled;
    if i < k {
      StaysClosing(run, i, k - 1);
      RunInv(run, k - 1);
      assert Next(run[k - 1], run[k - 1 + 1]);
      var step: Step<T> :| Enabled(run[k - 1], step) && run[k] == Apply(run[k - 1], step);
      CreditStays(run[k - 1], step);
    }
  }

  // Teardown does not wait

  /** Steps the closing side still has to take; `left` of them pop values. */
  function Phase(c: CloserPc): nat {
    match c
    case Open => 11
    case Loading1 => 10
    case Discarding1 => 9
    case Lock => 8
    case Offer => 7
    case Announce => 6
    case Decide(_) => 5
    case Unlock(_) => 4
    case Loading2 => 3
    case Discarding2 => 2
    case Done => 0
  }

  /** The next step of a closing receiver. */
  function NextClose<T>(s: State<T>): CloserOp {
    match s.closer
    case Open => Close
    case Loading1 => Load1
    case Discarding1 => if s.Taken() == s.seen then Drained1 else Pop1
    case Lock => TakeLock
    case Offer => PutSlot
    case Announce => SetClosed
    case Decide(overlapped) => if overlapped then LeaveIt else TakeBack
    case Unlock(_) => DropLock
    case Loading2 => Load2
    case Discarding2 => if s.Taken() == s.seen then Finish else Pop2
    case Done => Finish
  }

  predicate Nearer<T>(t: State<T>, s: State<T>) {
    Phase(t.closer) < Phase(s.closer) || (t.closer == s.closer && t.seen - t.Taken() < s.seen - s.Taken())
  }

  /** A receiver that is closing always has a step of its own, whatever the sender
      does or holds, and each brings it closer to the end. */
  lemma TeardownNeverWaits<T(!new)>(run: seq<State<T>>, k: nat)
    requires IsRun(run) && k < |run| && !run[k].closer.Done?
    ensures CloserEnabled(run[k], NextClose(run[k]))
    ensures Nearer(CloserApply(run[k], NextClose(run[k])), run[k])
  {
    RunInv(run, k);
  }

  /** And no step of a sender sets it back. */
  lemma SendersDoNotDelay<T(!new)>(run: seq<State<T>>, k: nat, op: SenderOp<T>)
    requires IsRun(run) && k < |run| && SenderEnabled(run[k], op) && !run[k].closer.Done?
    ensures var t := SenderApply(run[k], op);
      t.closer == run[k].closer && t.seen - t.Taken() == run[k].seen - run[k].Taken()
  {
    RunInv(run, k);
  }
}
