/** MPMC lane tokens as a state machine. A lane's ring may be drained only by the
    holder of its token, which rests in the registry slot, in a page queue, or
    with one receiver. Receivers find tokens through two bit summaries: ready
    bits set by senders and work bits set by whoever pushes onto a page queue. */
module MpmcTokens {

  import opened Basics

  datatype Page = Page(group: nat, index: nat)

  datatype Slot = Slot(page: Page, index: nat)

  datatype SenderPc = Ready | Flushed | MarkPage | MarkGroup

  datatype Lane = Lane(
    slot: Slot,
    head: nat,        // values taken out of the ring
    tail: nat,        // values flushed
    signaled: nat,    // values covered by a completed swap to PENDING
    pending: bool,
    dropped: bool,
    retired: bool,
    holder: nat,      // auxiliary: the receiver that last took the token
    pc: SenderPc)

  datatype Pc =
    | Idle
    | ClaimedReady(page: Page)
    | LockedReady(page: Page)                                     // registry locked, page bits not yet taken
    | Walking(page: Page, todo: set<Slot>, chosen: int)           // registry locked
    | Pushed(page: Page, todo: set<Slot>, chosen: int)            // registry locked, work bit not yet marked
    | ClaimedWork(page: Page)
    | Remarking(page: Page)                                       // saw the queue non-empty
    | Popping(page: Page)
    | Holding(lane: nat)
    | Requeued(page: Page)                                        // pushed, work bit not yet marked
    | Finishing(lane: nat)                                        // registry locked
    | Rechecking(lane: nat)
    | ClaimingBack(lane: nat)
    | Parking(lane: nat)

  datatype State = State(
    lanes: seq<Lane>,
    recvs: seq<Pc>,
    bits: set<Slot>,
    readyBits: set<Page>,
    workBits: set<Page>,
    parked: set<nat>,              // tokens in registry slots
    queued: set<nat>,              // tokens in page queues, in any order
    lock: int,                     // receiver inside the registry mutex, or -1
    // auxiliary: who last opened, claimed or pushed
    opener: map<Page, nat>,
    claimer: map<Page, nat>,
    worker: map<Page, nat>,
    pusher: map<Page, nat>)

  datatype SenderOp = Flush | Swap | PageBit | GroupBit | DropFlag

  datatype ReadyOp =
    | ClaimReady(p: Page) | LockReady | TakeBits
    | WalkVacant(sl: Slot) | WalkIdle(l: nat) | WalkChoose(l: nat) | WalkPush(l: nat) | WalkMark | WalkDone

  datatype WorkOp = ClaimWork(p: Page) | SeeWork | SeeNone | Remark | PopSome(l: nat) | PopNone | PopDirect(l: nat)

  datatype HoldOp =
    | Consume | Requeue | RequeueMark | FinishLock | FinishDrain | RecheckFull | RecheckEmpty | ClaimBack
    | Install | Retire

  datatype Step =
    | Register(slot: Slot)
    | Clone
    | BySender(i: nat, sop: SenderOp)
    | ByReady(r: nat, rop: ReadyOp)
    | ByWork(r: nat, wop: WorkOp)
    | ByHold(r: nat, hop: HoldOp)

  /** Token `i` rests in the queue of page `p`. */
  predicate InQueue(s: State, i: nat, p: Page) { i in s.queued && i < |s.lanes| && s.lanes[i].slot.page == p }

  predicate QueueEmpty(s: State, p: Page) { forall i | 0 <= i < |s.lanes| && i in s.queued :: s.lanes[i].slot.page != p }

  function NewLane(slot: Slot): Lane { Lane(slot, 0, 0, 0, false, false, false, 0, Ready) }

  function Init(): State {
    State([NewLane(Slot(Page(0, 0), 0))], [Idle], {}, {}, {}, {0}, {}, -1, map[], map[], map[], map[])
  }

  predicate PageEmpty(bits: set<Slot>, p: Page) { forall sl | sl in bits :: sl.page != p }

  predicate EnabledSender(s: State, i: nat, op: SenderOp)
    requires i < |s.lanes|
  {
    var l := s.lanes[i];
    match op
    case Flush => l.pc.Ready? && !l.dropped
    case Swap => l.pc.Flushed?
    case PageBit => l.pc.MarkPage?
    case GroupBit => l.pc.MarkGroup?
    case DropFlag => l.pc.Ready? && !l.dropped
  }

  function ApplySender(s: State, i: nat, op: SenderOp): State
    requires i < |s.lanes| && EnabledSender(s, i, op)
  {
    var l := s.lanes[i];
    match op
    case Flush => s.(lanes := s.lanes[i := l.(tail := l.tail + 1, pc := Flushed)])
    case Swap =>
      s.(lanes := s.lanes[i := l.(pending := true, signaled := l.tail, pc := if l.pending then Ready else MarkPage)])
    case PageBit =>
      var empty := PageEmpty(s.bits, l.slot.page);
      s.(lanes := s.lanes[i := l.(pc := if empty then MarkGroup else Ready)], bits := s.bits + {l.slot},
         opener := if empty then s.opener[l.slot.page := i] else s.opener)
    case GroupBit => s.(lanes := s.lanes[i := l.(pc := Ready)], readyBits := s.readyBits + {l.slot.page})
    case DropFlag => s.(lanes := s.lanes[i := l.(dropped := true, pc := Flushed)])
  }

  /** Claim a ready page and walk its bits under the registry mutex. */
  predicate EnabledReady(s: State, r: nat, op: ReadyOp)
    requires r < |s.recvs|
  {
    var pc := s.recvs[r];
    match op
    case ClaimReady(p) => pc.Idle? && p in s.readyBits
    case LockReady => pc.ClaimedReady? && s.lock == -1
    case TakeBits => pc.LockedReady?
    case WalkVacant(sl) =>
      pc.Walking? && sl in pc.todo && forall j | 0 <= j < |s.lanes| :: j in s.parked ==> s.lanes[j].slot != sl
    case WalkIdle(l) =>
      pc.Walking? && l < |s.lanes| && l in s.parked && s.lanes[l].slot in pc.todo && !s.lanes[l].pending
    case WalkChoose(l) =>
      pc.Walking? && l < |s.lanes| && l in s.parked && s.lanes[l].slot in pc.todo && s.lanes[l].pending && pc.chosen < 0
    case WalkPush(l) =>
      pc.Walking? && l < |s.lanes| && l in s.parked && s.lanes[l].slot in pc.todo && s.lanes[l].pending && 0 <= pc.chosen
    case WalkMark => pc.Pushed?
    case WalkDone => pc.Walking? && pc.todo == {}
  }

  function ApplyReady(s: State, r: nat, op: ReadyOp): State
    requires r < |s.recvs| && EnabledReady(s, r, op)
  {
    var pc := s.recvs[r];
    match op
    case ClaimReady(p) =>
      s.(recvs := s.recvs[r := ClaimedReady(p)], readyBits := s.readyBits - {p}, claimer := s.claimer[p := r])
    case LockReady => s.(recvs := s.recvs[r := LockedReady(pc.page)], lock := r)
    case TakeBits =>
      s.(recvs := s.recvs[r := Walking(pc.page, (set sl | sl in s.bits && sl.page == pc.page), -1)],
         bits := (set sl | sl in s.bits && sl.page != pc.page))
    case WalkVacant(sl) => s.(recvs := s.recvs[r := Walking(pc.page, pc.todo - {sl}, pc.chosen)])
    case WalkIdle(l) => s.(recvs := s.recvs[r := Walking(pc.page, pc.todo - {s.lanes[l].slot}, pc.chosen)])
    case WalkChoose(l) =>
      s.(recvs := s.recvs[r := Walking(pc.page, pc.todo - {s.lanes[l].slot}, l)],
         lanes := s.lanes[l := s.lanes[l].(holder := r)], parked := s.parked - {l})
    case WalkPush(l) =>
      s.(recvs := s.recvs[r := Pushed(pc.page, pc.todo - {s.lanes[l].slot}, pc.chosen)],
         parked := s.parked - {l}, queued := s.queued + {l}, pusher := s.pusher[pc.page := r])
    case WalkMark =>
      s.(recvs := s.recvs[r := Walking(pc.page, pc.todo, pc.chosen)], workBits := s.workBits + {pc.page})
    case WalkDone => s.(recvs := s.recvs[r := if pc.chosen < 0 then Idle else Holding(pc.chosen)], lock := -1)
  }

  /** Take a token from a page queue, after claiming its work bit or directly. */
  predicate EnabledWork(s: State, r: nat, op: WorkOp)
    requires r < |s.recvs|
  {
    var pc := s.recvs[r];
    match op
    case ClaimWork(p) => pc.Idle? && p in s.workBits
    case SeeWork => pc.ClaimedWork? && !QueueEmpty(s, pc.page)
    case SeeNone => pc.ClaimedWork? && QueueEmpty(s, pc.page)
    case Remark => pc.Remarking?
    case PopSome(l) => pc.Popping? && InQueue(s, l, pc.page)
    case PopNone => pc.Popping? && QueueEmpty(s, pc.page)
    case PopDirect(l) => pc.Idle? && l < |s.lanes| && l in s.queued
  }

  function ApplyWork(s: State, r: nat, op: WorkOp): State
    requires r < |s.recvs| && EnabledWork(s, r, op)
  {
    var pc := s.recvs[r];
    match op
    case ClaimWork(p) =>
      s.(recvs := s.recvs[r := ClaimedWork(p)], workBits := s.workBits - {p}, worker := s.worker[p := r])
    case SeeWork => s.(recvs := s.recvs[r := Remarking(pc.page)])
    case SeeNone => s.(recvs := s.recvs[r := Popping(pc.page)])
    case Remark => s.(recvs := s.recvs[r := Popping(pc.page)], workBits := s.workBits + {pc.page})
    case PopSome(l) => Take(s, r, l)
    case PopNone => s.(recvs := s.recvs[r := Idle])
    case PopDirect(l) => Take(s, r, l)
  }

  function Take(s: State, r: nat, l: nat): State
    requires r < |s.recvs| && l < |s.lanes|
  {
    s.(recvs := s.recvs[r := Holding(l)], lanes := s.lanes[l := s.lanes[l].(holder := r)], queued := s.queued - {l})
  }

  /** Drain a held lane, then requeue, park or retire it. */
  predicate EnabledHold(s: State, r: nat, op: HoldOp)
    requires r < |s.recvs|
  {
    var pc := s.recvs[r];
    match op
    case Consume => pc.Holding? && pc.lane < |s.lanes| && s.lanes[pc.lane].head < s.lanes[pc.lane].tail
    case Requeue => pc.Holding? && pc.lane < |s.lanes|
    case RequeueMark => pc.Requeued?
    case FinishLock => pc.Holding? && s.lock == -1
    case FinishDrain => pc.Finishing? && pc.lane < |s.lanes|
    case RecheckFull => pc.Rechecking? && pc.lane < |s.lanes| && s.lanes[pc.lane].head != s.lanes[pc.lane].tail
    case RecheckEmpty => pc.Rechecking? && pc.lane < |s.lanes| && s.lanes[pc.lane].head == s.lanes[pc.lane].tail
    case ClaimBack => pc.ClaimingBack? && pc.lane < |s.lanes|
    case Install => pc.Parking? && pc.lane < |s.lanes|
    case Retire =>
      pc.Parking? && pc.lane < |s.lanes| && s.lanes[pc.lane].dropped && s.lanes[pc.lane].head == s.lanes[pc.lane].tail
  }

  function ApplyHold(s: State, r: nat, op: HoldOp): State
    requires r < |s.recvs| && EnabledHold(s, r, op)
  {
    var pc := s.recvs[r];
    match op
    case Consume => s.(lanes := s.lanes[pc.lane := s.lanes[pc.lane].(head := s.lanes[pc.lane].head + 1)])
    case Requeue =>
      var p := s.lanes[pc.lane].slot.page;
      s.(recvs := s.recvs[r := Requeued(p)], queued := s.queued + {pc.lane}, pusher := s.pusher[p := r])
    case RequeueMark => s.(recvs := s.recvs[r := Idle], workBits := s.workBits + {pc.page})
    case FinishLock => s.(recvs := s.recvs[r := Finishing(pc.lane)], lock := r)
    case FinishDrain =>
      s.(recvs := s.recvs[r := Rechecking(pc.lane)], lanes := s.lanes[pc.lane := s.lanes[pc.lane].(pending := false)])
    case RecheckFull => s.(recvs := s.recvs[r := ClaimingBack(pc.lane)])
    case RecheckEmpty => s.(recvs := s.recvs[r := Parking(pc.lane)])
    case ClaimBack =>
      s.(recvs := s.recvs[r := Holding(pc.lane)], lock := -1,
         lanes := s.lanes[pc.lane := s.lanes[pc.lane].(pending := true)])
    case Install =>
      s.(recvs := s.recvs[r := Idle], lock := -1, parked := s.parked + {pc.lane})
    case Retire =>
      s.(recvs := s.recvs[r := Idle], lock := -1, lanes := s.lanes[pc.lane := s.lanes[pc.lane].(retired := true)])
  }

  predicate Enabled(s: State, a: Step) {
    match a
    case Register(slot) =>
      s.lock == -1 && slot.index < LANES_PER_PAGE
      && forall j | 0 <= j < |s.lanes| :: s.lanes[j].retired || s.lanes[j].slot != slot
    case Clone => true
    case BySender(i, op) => i < |s.lanes| && EnabledSender(s, i, op)
    case ByReady(r, op) => r < |s.recvs| && EnabledReady(s, r, op)
    case ByWork(r, op) => r < |s.recvs| && EnabledWork(s, r, op)
    case ByHold(r, op) => r < |s.recvs| && EnabledHold(s, r, op)
  }

  function Apply(s: State, a: Step): State
    requires Enabled(s, a)
  {
    match a
    case Register(slot) => s.(lanes := s.lanes + [NewLane(slot)], parked := s.parked + {|s.lanes|})
    case Clone => s.(recvs := s.recvs + [Idle])
    case BySender(i, op) => ApplySender(s, i, op)
    case ByReady(r, op) => ApplyReady(s, r, op)
    case ByWork(r, op) => ApplyWork(s, r, op)
    case ByHold(r, op) => ApplyHold(s, r, op)
  }

  ghost predicate Next(s: State, s': State) {
    exists a: Step :: Enabled(s, a) && s' == Apply(s, a)
  }

  ghost predicate IsRun(run: seq<State>) {
    |run| > 0 && run[0] == Init() && forall k | 0 <= k < |run| - 1 :: Next(run[k], run[k + 1])
  }

  // ---------------------------------------------------------------- invariant

  /** The lane whose token a receiver carries, or -1. */
  function Carried(pc: Pc): int {
    match pc
    case Walking(_, _, c) => c
    case Pushed(_, _, c) => c
    case Holding(l) => l
    case Finishing(l) => l
    case Rechecking(l) => l
    case ClaimingBack(l) => l
    case Parking(l) => l
    case _ => -1
  }

  predicate NeedsLock(pc: Pc) {
    pc.LockedReady? || pc.Walking? || pc.Pushed? || pc.Finishing? || pc.Rechecking? || pc.ClaimingBack? || pc.Parking?
  }

  predicate Basic(s: State) {
    && (forall i | 0 <= i < |s.lanes| ::
          s.lanes[i].head <= s.lanes[i].tail && s.lanes[i].signaled <= s.lanes[i].tail
          && (s.lanes[i].pc.Flushed? || s.lanes[i].signaled == s.lanes[i].tail)
          && s.lanes[i].slot.index < LANES_PER_PAGE)
    && (forall i, j | 0 <= i < j < |s.lanes| && !s.lanes[i].retired && !s.lanes[j].retired ::
          s.lanes[i].slot != s.lanes[j].slot)
  }

  predicate Mutex(s: State) {
    && s.lock < |s.recvs|
    && (forall r | 0 <= r < |s.recvs| :: NeedsLock(s.recvs[r]) <==> s.lock == r)
    && (forall r | 0 <= r < |s.recvs| && (s.recvs[r].Walking? || s.recvs[r].Pushed?) ::
          forall sl | sl in s.recvs[r].todo :: sl.page == s.recvs[r].page)
  }

  /** No token is in two places. */
  predicate Unique(s: State) {
    && (forall i | i in s.parked :: i < |s.lanes| && !s.lanes[i].retired && i !in s.queued)
    && (forall i | i in s.queued :: i < |s.lanes| && !s.lanes[i].retired)
    && (forall r | 0 <= r < |s.recvs| && 0 <= Carried(s.recvs[r]) ::
          var i := Carried(s.recvs[r]);
          i < |s.lanes| && !s.lanes[i].retired && i !in s.parked && i !in s.queued && s.lanes[i].holder == r)
  }

  /** No token is lost. */
  predicate Placed(s: State) {
    forall i | 0 <= i < |s.lanes| && !s.lanes[i].retired ::
      i in s.parked || i in s.queued || (s.lanes[i].holder < |s.recvs| && Carried(s.recvs[s.lanes[i].holder]) == i)
  }

  predicate Walked(s: State, sl: Slot) {
    0 <= s.lock < |s.recvs| && (s.recvs[s.lock].Walking? || s.recvs[s.lock].Pushed?) && sl in s.recvs[s.lock].todo
  }

  predicate Parked(s: State, i: nat)
    requires i < |s.lanes|
  {
    i in s.parked
    || (0 <= s.lock < |s.recvs| && (s.recvs[s.lock] == Rechecking(i) || s.recvs[s.lock] == Parking(i)))
  }

  /** A pending lane parked in its slot is indexed, about to be, or being walked. */
  predicate Indexed(s: State) {
    forall i | 0 <= i < |s.lanes| && s.lanes[i].pending && Parked(s, i) ::
      s.lanes[i].slot in s.bits || s.lanes[i].pc.MarkPage? || Walked(s, s.lanes[i].slot)
  }

  /** A parked lane with signaled unread values is pending. */
  predicate Data(s: State) {
    && (forall i | 0 <= i < |s.lanes| && i in s.parked && s.lanes[i].head < s.lanes[i].signaled :: s.lanes[i].pending)
    && (forall r | 0 <= r < |s.recvs| && s.recvs[r].Parking? && s.recvs[r].lane < |s.lanes| ::
          s.lanes[s.recvs[r].lane].head < s.lanes[s.recvs[r].lane].signaled ==> s.lanes[s.recvs[r].lane].pending)
  }

  predicate ReadyPages(s: State) {
    forall sl | sl in s.bits ::
      || sl.page in s.readyBits
      || (sl.page in s.claimer && s.claimer[sl.page] < |s.recvs|
          && (s.recvs[s.claimer[sl.page]] == ClaimedReady(sl.page) || s.recvs[s.claimer[sl.page]] == LockedReady(sl.page)))
      || (sl.page in s.opener && s.opener[sl.page] < |s.lanes| && s.lanes[s.opener[sl.page]].pc.MarkGroup?
          && s.lanes[s.opener[sl.page]].slot.page == sl.page)
  }

  predicate WorkPages(s: State) {
    forall i | 0 <= i < |s.lanes| && i in s.queued :: WorkKnown(s, s.lanes[i].slot.page)
  }

  predicate WorkKnown(s: State, p: Page) {
    || p in s.workBits
    || (p in s.worker && s.worker[p] < |s.recvs|
        && (s.recvs[s.worker[p]] == ClaimedWork(p) || s.recvs[s.worker[p]] == Remarking(p)))
    || (p in s.pusher && s.pusher[p] < |s.recvs| && OwesMark(s.recvs[s.pusher[p]], p))
  }

  predicate OwesMark(pc: Pc, p: Page) { (pc.Pushed? || pc.Requeued?) && pc.page == p }

  predicate Inv(s: State) {
    Basic(s) && Mutex(s) && Unique(s) && Placed(s) && Indexed(s) && Data(s) && ReadyPages(s) && WorkPages(s)
  }
}
