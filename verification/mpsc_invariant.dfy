/** The inductive invariant of the MPSC channel and its preservation. */
module MpscInvariant {
  import opened MpscModel

  // ---------------------------------------------------------------- counting

  /** What a shared counter counts: registered lanes or live senders. */
  datatype Counter = RegisteredLanes | LiveSenders

  predicate Counted(c: Counter, l: Lane) { if c.RegisteredLanes? then !l.retired else l.live }

  function CountBy(lanes: seq<Lane>, c: Counter): nat {
    if |lanes| == 0 then 0
    else CountBy(lanes[..|lanes| - 1], c) + (if Counted(c, lanes[|lanes| - 1]) then 1 else 0)
  }

  lemma {:induction false} CountUpdate(lanes: seq<Lane>, i: nat, l: Lane, c: Counter)
    requires i < |lanes|
    ensures CountBy(lanes[i := l], c)
         == CountBy(lanes, c) - (if Counted(c, lanes[i]) then 1 else 0) + (if Counted(c, l) then 1 else 0)
  {
    var n := |lanes| - 1;
    if i == n {
      assert lanes[i := l][..n] == lanes[..n];
    } else {
      assert lanes[i := l][..n] == lanes[..n][i := l];
      CountUpdate(lanes[..n], i, l, c);
    }
  }

  lemma {:induction false} CountSame(a: seq<Lane>, b: seq<Lane>, c: Counter)
    requires |a| == |b| && forall i | 0 <= i < |a| :: Counted(c, a[i]) == Counted(c, b[i])
    ensures CountBy(a, c) == CountBy(b, c)
  {
    if |a| > 0 {
      CountSame(a[..|a| - 1], b[..|b| - 1], c);
    }
  }

  /** The counter reads zero exactly when nothing is counted. */
  lemma {:induction false} CountZero(lanes: seq<Lane>, c: Counter)
    ensures CountBy(lanes, c) == 0 <==> forall i | 0 <= i < |lanes| :: !Counted(c, lanes[i])
  {
    if |lanes| > 0 {
      var n := |lanes| - 1;
      CountZero(lanes[..n], c);
      assert forall i | 0 <= i < n :: lanes[..n][i] == lanes[i];
    }
  }

  // --------------------------------------------------------------- invariant

  /** The lane the receiver is working on, or -1. */
  function Held(pc: ReceiverPc): int {
    match pc
    case Rechecking(i) => i
    case Claiming(i) => i
    case Leaving(i) => i
    case LeavingDropped(i) => i
    case Targeting(i) => i
    case MarkSwap(i) => i
    case MarkPageBit(i) => i
    case MarkGroupBit(i) => i
    case Queueing(i) => i
    case ClosingLane(i) => i
    case _ => -1
  }

  predicate Collecting(pc: ReceiverPc) { pc.Scan? || pc.Known? || pc.Taken? || pc.Lanes? }

  predicate Marking(pc: ReceiverPc) { pc.MarkSwap? || pc.MarkPageBit? || pc.MarkGroupBit? || pc.Queueing? }

  predicate IsLeaving(pc: ReceiverPc) { pc.Leaving? || pc.LeavingDropped? }

  predicate WillNotify(pc: SenderPc) { pc.MarkPage? || pc.MarkGroup? || pc.Leave? || pc.Notify? }

  /** Ring positions. */
  predicate Basic(s: State) {
    && s.known <= |s.lanes|
    && forall i | 0 <= i < |s.lanes| :: LaneBasic(s.lanes[i], i < s.known)
  }

  predicate LaneBasic(l: Lane, known: bool) {
    && 0 < l.cap
    && l.pub <= l.head <= l.window <= l.tail <= l.cursor <= l.pub + l.cap
    && l.signaled <= l.tail
    && (!known ==> !l.queued && !l.paused && !l.retired && l.window == 0)
    && (l.retired ==> !l.queued && !l.paused)
    && (l.paused ==> !l.queued)
  }

  /** A sender that has started to drop publishes everything and never sends again. */
  predicate Life(s: State) { forall i | 0 <= i < |s.lanes| :: LaneLife(s.lanes[i]) }

  predicate LaneLife(l: Lane) {
    && (l.dropped ==> l.tail == l.cursor)
    && (l.dropped ==> l.pc.Flushed? || WillNotify(l.pc) || l.pc.Signal? || l.pc.Gone?)
    && (l.pc.Closing? ==> l.tail == l.cursor)
    && (l.pc.Leave? ==> l.dropped)
    && (l.pc.Gone? ==> l.dropped)
    && (!l.live <==> l.dropped && (l.pc.Notify? || l.pc.Signal? || l.pc.Gone?))
    && (l.retired && !l.explicit ==> l.dropped && l.head == l.tail)
  }

  predicate Distinct(s: State) {
    forall i, j | 0 <= i < j < |s.lanes| && !s.lanes[i].retired && !s.lanes[j].retired ::
      s.lanes[i].slot != s.lanes[j].slot
  }

  /** Steps that give no lane another slot and unretire none keep slots apart. */
  lemma DistinctKept(s: State, t: State)
    requires Distinct(s) && |t.lanes| == |s.lanes|
    requires forall i | 0 <= i < |s.lanes| ::
      t.lanes[i].slot == s.lanes[i].slot && (s.lanes[i].retired ==> t.lanes[i].retired)
    ensures Distinct(t)
  {}

  /** Set bits belong to registered lanes, and the receiver knows every page it claimed. */
  predicate Index(s: State) {
    && (forall sl | sl in s.bits ::
          sl in s.setter && s.setter[sl] < |s.lanes| && s.lanes[s.setter[sl]].slot == sl)
    && (forall i | 0 <= i < |s.lanes| :: s.lanes[i].slot.page in s.pageLane)
    && (forall p | p in s.pageLane :: s.pageLane[p] < |s.lanes|)
    && s.groupBits <= s.pageLane.Keys
    && s.claimPages <= s.pageLane.Keys
    && (s.pc.Known? ==> forall p | p in s.claimPages :: s.pageLane[p] < s.known)
  }

  /** What each receiver position implies. */
  predicate Control(s: State)
    requires Basic(s)
  {
    && (!Collecting(s.pc) ==> s.claimPages == {})
    && (!(s.pc.Taken? || s.pc.Lanes?) ==> s.claimSlots == {})
    && (Held(s.pc) >= 0 ==>
          var h := Held(s.pc);
          h < s.known && !s.lanes[h].retired &&
          var l := s.lanes[h];
          && (s.pc.Rechecking? || IsLeaving(s.pc) ==> l.window == l.head)
          && (s.pc.Rechecking? || s.pc.Claiming? || IsLeaving(s.pc) ==> l.pub == l.head)
          && (s.pc.Claiming? || s.pc.Targeting? ==> l.head < l.window)
          && (s.pc.Rechecking? || s.pc.Claiming? ==> l.queued || (s.mode.Awake? && !s.scanning))
          && (IsLeaving(s.pc) ==> !l.queued)
          && (s.pc.LeavingDropped? ==> l.dropped)
          && (s.pc.Targeting? || Marking(s.pc) ==> !l.queued && !l.paused)
          && (s.pc.Targeting? || Marking(s.pc) || s.pc.ClosingLane? ==> s.mode.Awake? && !s.scanning))
    && (s.mode.Awake? <==> !s.waiting)
    && (!s.mode.Awake? ==> !s.scanning)
    && (s.mode.Waiting? || s.mode.Sleeping? ==> s.mode.snap <= s.dataGen)
    && (s.mode.Sleeping? ==> s.pc.Idle?)
    && (s.pc.Deciding? ==> s.mode.Waiting?)
    && (s.mode.Sleeping? || s.pc.Deciding? ==>
          NothingQueued(s) && s.todo == {} && s.oweSpace == {} && s.sigSpace == {} && s.swept)
  }

  /** A stale sleeper is owed a signal. */
  predicate Owed(s: State) {
    s.mode.Sleeping? && s.mode.snap != s.dataGen ==>
      s.signaler < |s.lanes| && s.lanes[s.signaler].pc.Signal?
  }

  /** A pending lane is in the rotation, in the index, or in someone's hands. */
  predicate Token(s: State) {
    forall i | 0 <= i < |s.lanes| :: LaneToken(s.lanes[i], i, s.pc, s.bits, s.claimSlots, s.known)
  }

  predicate LaneToken(l: Lane, i: nat, pc: ReceiverPc, bits: set<Slot>, claimSlots: set<Slot>, known: nat) {
    !l.retired && !l.paused && l.pending ==>
      || (l.queued && pc != Rechecking(i))
      || l.slot in bits
      || (l.slot in claimSlots && (pc.Taken? || i < known))
      || l.pc.MarkPage?
      || (Held(pc) == i && !pc.Rechecking? && !IsLeaving(pc))
  }

  /** A lane with signaled unread values is pending or being looked at. */
  predicate Data(s: State) { forall i | 0 <= i < |s.lanes| :: LaneData(s.lanes[i], i, s.pc) }

  predicate LaneData(l: Lane, i: nat, pc: ReceiverPc) {
    !l.retired && !l.paused && l.head < l.signaled ==> l.pending || l.queued || (Held(pc) == i && !IsLeaving(pc))
  }

  /** A lane outside the rotation withholds no credits. */
  predicate Credit(s: State) { forall i | 0 <= i < |s.lanes| :: LaneCredit(s.lanes[i], i, s.pc) }

  predicate LaneCredit(l: Lane, i: nat, pc: ReceiverPc) {
    !l.retired && !l.paused && !l.queued && Held(pc) != i ==> l.pub == l.head
  }

  /** A non-empty page has its group bit, a claim, or someone about to set the group bit. */
  predicate Pages(s: State) {
    forall sl | sl in s.bits ::
      || sl.page in s.groupBits
      || sl.page in s.claimPages
      || Opening(s, sl.page)
      || (s.pc.MarkGroupBit? && s.pc.lane < |s.lanes| && s.lanes[s.pc.lane].slot.page == sl.page)
  }

  predicate Opening(s: State, p: Page) {
    p in s.opener && s.opener[p] < |s.lanes| && s.lanes[s.opener[p]].pc.MarkGroup?
    && s.lanes[s.opener[p]].slot.page == p
  }

  predicate Noticed(s: State, sl: Slot) {
    || (sl in s.setter && s.setter[sl] < |s.lanes| && WillNotify(s.lanes[s.setter[sl]].pc))
    || (sl.page in s.opener && s.opener[sl.page] < |s.lanes| && WillNotify(s.lanes[s.opener[sl.page]].pc))
  }

  /** While the receiver's registration is current, a bit it has already looked
      past was set by a sender that has yet to notify. */
  predicate Wakeup(s: State) {
    (s.mode.Waiting? || s.mode.Sleeping?) && s.mode.snap == s.dataGen && s.swept ==>
      forall sl | sl in s.bits && sl.page.group !in s.todo && sl.page !in s.claimPages :: Noticed(s, sl)
  }

  /** A sender asleep on a stale registration is owed a signal. */
  predicate SpaceOwed(s: State) {
    && (forall i | i in s.oweSpace :: i < |s.lanes|)
    && (forall i | i in s.sigSpace :: i < |s.lanes|)
    && forall i | 0 <= i < |s.lanes| ::
         var l := s.lanes[i];
         && (SpaceWaiting(l.pc) ==> l.pc.snap <= l.spaceGen)
         && (l.pc.Asleep? && l.pc.snap != l.spaceGen ==> i in s.sigSpace)
  }

  /** A sender that found its ring full keeps a current registration only while
      the ring stays full and open, or the receiver still owes a notification. */
  predicate SpaceFullRing(s: State) {
    forall i | 0 <= i < |s.lanes| && SpaceWaiting(s.lanes[i].pc) && s.lanes[i].pc.snap == s.lanes[i].spaceGen
      && i !in s.oweSpace ::
      var l := s.lanes[i];
      l.pc.Registered? || (l.cursor == l.pub + l.cap && (l.pc.Full? || !l.closed))
  }

  predicate Counts(s: State) {
    s.registered == CountBy(s.lanes, RegisteredLanes) && s.liveSenders == CountBy(s.lanes, LiveSenders)
  }

  /** A lane leaves a running scan's rotation only after it was observed empty. */
  predicate ScanProgress(s: State) {
    s.scanning ==> forall i | i in s.scanSet ::
      && i < s.known <= |s.lanes| && !s.lanes[i].paused && s.scanSet[i] <= s.lanes[i].tail
      && (s.lanes[i].queued || i in s.seenEmpty)
      && (i in s.seenEmpty ==> s.scanSet[i] <= s.lanes[i].head)
  }

  /** A lane that only ever sent signaled values has signaled everything it wrote. */
  predicate PlainSends(s: State) { forall i | 0 <= i < |s.lanes| :: LanePlain(s.lanes[i]) }

  predicate LanePlain(l: Lane) {
    l.plain ==>
      && (if l.pc.Pushed? then l.pc.signal else l.tail == l.cursor)
      && (l.pc.Pushed? || l.pc.Flushed? || l.pc.Closing? || l.signaled == l.cursor)
  }

  predicate Inv(s: State) {
    && Basic(s) && Life(s) && Distinct(s) && Index(s) && Control(s) && Owed(s)
    && Token(s) && Data(s) && Credit(s) && Pages(s) && Wakeup(s) && SpaceOwed(s) && SpaceFullRing(s)
    && Counts(s) && ScanProgress(s) && PlainSends(s)
  }

  /** A step that changes one lane moves the counters by that lane. */
  lemma CountsAfter(s: State, t: State, i: nat)
    requires Counts(s) && i < |s.lanes| == |t.lanes| && t.lanes == s.lanes[i := t.lanes[i]]
    requires t.registered - s.registered == (if t.lanes[i].retired then 0 else 1) - (if s.lanes[i].retired then 0 else 1)
    requires t.liveSenders - s.liveSenders == (if t.lanes[i].live then 1 else 0) - (if s.lanes[i].live then 1 else 0)
    ensures Counts(t)
  {
    CountUpdate(s.lanes, i, t.lanes[i], RegisteredLanes);
    CountUpdate(s.lanes, i, t.lanes[i], LiveSenders);
  }

  /** A step that retires no lane and drops no sender leaves the counters alone. */
  lemma CountsKept(s: State, t: State)
    requires Counts(s) && |s.lanes| == |t.lanes|
    requires t.registered == s.registered && t.liveSenders == s.liveSenders
    requires forall i | 0 <= i < |s.lanes| ::
      t.lanes[i].retired == s.lanes[i].retired && t.lanes[i].live == s.lanes[i].live
    ensures Counts(t)
  {
    CountSame(s.lanes, t.lanes, RegisteredLanes);
    CountSame(s.lanes, t.lanes, LiveSenders);
  }
}
