/** The MPSC channel as a state machine: any number of senders, one receiver,
    one atomic operation per step.

    A lane is one sender's ring together with its readiness signal, its capacity
    wait cell and the receiver's bookkeeping for it. Lanes are listed in
    registration order and never removed, so an index identifies one sender for
    the whole run; a slot may be reused by a later lane. Ring positions are
    unbounded counters (the ring modules justify that).

    The receiver's choice of lane and of order is left open, so every schedule
    of the real receiver is a run of this machine. */
module MpscModel {

  /** A ready page: bit `index` of the ready group `group`. */
  datatype Page = Page(group: nat, index: nat)

  /** A lane slot: bit `index` of a ready page. */
  datatype Slot = Slot(page: Page, index: nat)

  datatype SenderPc =
    | Ready                    // between operations
    | Pushed(signal: bool)     // value written, not yet flushed
    | Flushed                  // published, signal not yet swapped
    | MarkPage                 // swapped IDLE to PENDING, page bit not yet set
    | MarkGroup                // page was empty, group bit not yet set
    | Leave                    // dropped sender, still counted in live_senders
    | Notify                   // owes a data notification
    | Signal                   // saw a registered receiver, owes the condvar signal
    | Closing                  // drop flushed, dropped flag not yet stored
    | Registered(snap: nat)    // registered on the capacity cell
    | Full(snap: nat)          // the registered retry found the ring full
    | Checked(snap: nat)       // and then found the lane open
    | Asleep(snap: nat)
    | Gone

  datatype Lane = Lane(
    slot: Slot,
    cap: nat,
    cursor: nat,      // values written by the sender
    tail: nat,        // values flushed
    signaled: nat,    // values covered by a completed swap to PENDING
    head: nat,        // values popped by the receiver
    pub: nat,         // popped values whose slots were released
    window: nat,      // the receiver's prefetched tail
    pending: bool,    // LaneSignal state
    queued: bool,
    paused: bool,
    retired: bool,
    explicit: bool,   // retired by close_lane
    dropped: bool,    // producer_dropped
    closed: bool,     // consumer_dropped
    live: bool,       // counted in live_senders
    plain: bool,      // never sent unsignaled or deferred
    spaceGen: nat,    // capacity cell generation
    pc: SenderPc)

  datatype ReceiverPc =
    | Idle
    | Scan                          // choosing the next group
    | Known                         // registry refreshed, page not yet taken
    | Taken                         // page taken, registry not yet refreshed
    | Lanes                         // handling the taken lane bits
    | Rechecking(lane: nat)         // marked idle, ring not yet rechecked
    | Claiming(lane: nat)           // recheck found data
    | Leaving(lane: nat)            // recheck found nothing
    | LeavingDropped(lane: nat)     // and the sender was seen dropped
    | Targeting(lane: nat)          // targeted receive about to pop
    | MarkSwap(lane: nat)           // receiver marks a lane it is about to queue
    | MarkPageBit(lane: nat)
    | MarkGroupBit(lane: nat)
    | Queueing(lane: nat)
    | ClosingLane(lane: nat)
    | Deciding                      // found nothing while registered, not drained: about to sleep

  datatype Mode = Awake | Waiting(snap: nat) | Sleeping(snap: nat) | Waking

  datatype State = State(
    lanes: seq<Lane>,
    bits: set<Slot>,            // set page bits
    groupBits: set<Page>,       // set group bits
    pageLane: map<Page, nat>,   // the registration that created each page
    waiting: bool,              // WAITING bit of the data cell
    dataGen: nat,               // generation of the data cell
    registered: nat,
    liveSenders: nat,
    // receiver
    known: nat,                 // registrations adopted so far
    pc: ReceiverPc,
    mode: Mode,
    todo: set<nat>,             // groups the current collection has yet to visit
    claimPages: set<Page>,
    claimSlots: set<Slot>,
    oweSpace: set<nat>,         // lanes released but not yet notified
    sigSpace: set<nat>,         // lanes notified whose sender was registered
    swept: bool,                // the collection began after registering to wait
    scanning: bool,
    scanSet: map<nat, nat>,     // lanes a scan started with, and what each had published
    seenEmpty: set<nat>,        // lanes observed empty since the scan started
    // auxiliary: who set what
    setter: map<Slot, nat>,
    opener: map<Page, nat>,
    signaler: nat,
    sawLive: bool,              // the last look at the counters before sleeping saw a live sender
    leaver: nat)

  /** A sender publishes values on its own lane, or starts to drop. */
  datatype PublishOp = Push(signal: bool) | PushDeferred | Flush | FlushDeferred | DropFlush | DropFlag

  /** A sender marks its lane ready and notifies the receiver. */
  datatype MarkOp = Swap | PageBit | GroupBit | LeaveLive | NotifyData | SignalData

  /** A sender waits for capacity on its own lane. */
  datatype SpaceOp = SpaceRegister | SpaceFull | SpaceCheck | SpaceSleep | SpaceWake

  /** The receiver collects ready lanes. */
  datatype CollectOp =
    | Refresh | CollectStart | SkipGroup(g: nat) | TakeGroup(g: nat) | RefreshPage
    | TakePage(p: Page) | DropPage(p: Page) | RefreshLanes
    | ProcessLane(i: nat) | ProcessVacant(sl: Slot) | EndPage | CollectEnd

  /** The receiver takes values from a lane and releases their slots. */
  datatype ConsumeOp = Prefetch | Pop | TargetPop | Release | NotifySpace | SignalSpace

  /** The receiver settles a lane whose ring looked empty. */
  datatype SettleOp =
    | FinishDrain | RecheckFull | RecheckEmpty | Claim | CheckDropped | CheckUndrained | RetireDrained

  /** The receiver pauses, resumes or closes a lane. */
  datatype ManageOp = Pause | Resume | CloseFlag | CloseRetire | RetirePaused

  /** The receiver marks a lane and puts it back into the rotation. */
  datatype RequeueOp = RSwap | RPageBit | RGroupBit | RQueue

  /** Receiver steps over the whole channel. */
  datatype WaitOp =
    | SelfNotify | PollAll | ScanStart | ScanEnd | WaitRegister | Unregister
    | SeeLive | SeePaused | Decline | Sleep | Wake

  datatype Step =
    | Register(slot: Slot, cap: nat)
    | ByPublish(i: nat, uop: PublishOp)
    | ByMark(i: nat, mop: MarkOp)
    | BySpace(i: nat, pop: SpaceOp)
    | ByCollect(cop: CollectOp)
    | ByConsume(i: nat, nop: ConsumeOp)
    | BySettle(i: nat, top: SettleOp)
    | ByManage(i: nat, gop: ManageOp)
    | ByRequeue(i: nat, qop: RequeueOp)
    | ByReceiver(wop: WaitOp)

  function NewLane(slot: Slot, cap: nat): Lane {
    Lane(slot, cap, 0, 0, 0, 0, 0, 0, false, false, false, false, false, false, false, true, true, 0, Ready)
  }

  function Init(cap: nat): State {
    var first := Slot(Page(0, 0), 0);
    State([NewLane(first, cap)], {}, {}, map[first.page := 0], false, 0, 1, 1,
          1, Idle, Awake, {}, {}, {}, {}, {}, false, false, map[], {}, map[], map[], 0, false, 0)
  }

  predicate PageEmpty(bits: set<Slot>, p: Page) {
    forall sl | sl in bits :: sl.page != p
  }

  predicate GroupEmpty(groupBits: set<Page>, g: nat) {
    forall p | p in groupBits :: p.group != g
  }

  predicate NothingQueued(s: State) {
    forall i | 0 <= i < |s.lanes| :: !s.lanes[i].queued
  }

  predicate IsLive(s: State, i: nat) {
    i < s.known <= |s.lanes| && !s.lanes[i].retired
  }

  function AfterMark(l: Lane): SenderPc { if l.dropped then Leave else Notify }

  function AfterSend(l: Lane): SenderPc { if l.dropped then Gone else Ready }

  /** Whether the lane's capacity cell has its WAITING bit set. */
  predicate SpaceWaiting(pc: SenderPc) {
    pc.Registered? || pc.Full? || pc.Checked? || pc.Asleep?
  }

  /** The receiver thread is between two lane operations and not asleep. */
  predicate Running(s: State) { s.pc.Idle? && !s.mode.Sleeping? }

  predicate EnabledPublish(s: State, i: nat, op: PublishOp)
    requires i < |s.lanes|
  {
    var l := s.lanes[i];
    match op
    case Push(signal) =>
      (l.pc.Ready? || (l.pc.Registered? && signal))
      && l.cursor < l.pub + l.cap
    case PushDeferred =>
      l.pc.Ready? && l.cursor < l.pub + l.cap
    case Flush => l.pc.Pushed?
    case FlushDeferred => l.pc.Ready?
    case DropFlush => l.pc.Ready?
    case DropFlag => l.pc.Closing?
  }

  predicate EnabledMark(s: State, i: nat, op: MarkOp)
    requires i < |s.lanes|
  {
    var l := s.lanes[i];
    match op
    case Swap => l.pc.Flushed?
    case PageBit => l.pc.MarkPage?
    case GroupBit => l.pc.MarkGroup?
    case LeaveLive => l.pc.Leave? && 0 < s.liveSenders
    case NotifyData => l.pc.Notify?
    case SignalData => l.pc.Signal?
  }

  predicate EnabledSpace(s: State, i: nat, op: SpaceOp)
    requires i < |s.lanes|
  {
    var l := s.lanes[i];
    match op
    case SpaceRegister => l.pc.Ready?
    case SpaceFull =>
      l.pc.Registered? && l.pub + l.cap <= l.cursor
    case SpaceCheck => l.pc.Full?
    case SpaceSleep => l.pc.Checked?
    case SpaceWake => SpaceWaiting(l.pc)
  }

  predicate EnabledCollect(s: State, op: CollectOp) {
    match op
    case Refresh => Running(s)
    case CollectStart => Running(s)
    case SkipGroup(g) => s.pc.Scan? && s.claimPages == {} && g in s.todo && GroupEmpty(s.groupBits, g)
    case TakeGroup(g) => s.pc.Scan? && s.claimPages == {} && g in s.todo
    case RefreshPage => s.pc.Scan? && s.claimPages != {}
    case TakePage(p) =>
      s.pc.Known? && p in s.claimPages && p in s.pageLane && s.pageLane[p] < s.known
    case DropPage(p) =>
      s.pc.Known? && p in s.claimPages && !(p in s.pageLane && s.pageLane[p] < s.known)
    case RefreshLanes => s.pc.Taken?
    case ProcessLane(i) => s.pc.Lanes? && IsLive(s, i) && s.lanes[i].slot in s.claimSlots
    case ProcessVacant(sl) =>
      s.pc.Lanes? && sl in s.claimSlots && s.known <= |s.lanes|
      && forall j | 0 <= j < s.known :: s.lanes[j].retired || s.lanes[j].slot != sl
    case EndPage => s.pc.Lanes? && s.claimSlots == {}
    case CollectEnd => s.pc.Scan? && s.claimPages == {}
  }

  predicate EnabledConsume(s: State, i: nat, op: ConsumeOp)
    requires i < |s.lanes|
  {
    var l := s.lanes[i];
    match op
    case Prefetch => Running(s) && IsLive(s, i)
    case Pop =>
      Running(s) && IsLive(s, i) && l.head < l.window
      && (l.queued || (s.mode.Awake? && !s.scanning))
    case TargetPop => s.pc == Targeting(i)
    case Release => (Running(s) || s.pc == MarkSwap(i)) && IsLive(s, i) && l.pub < l.head
    case NotifySpace => i in s.oweSpace
    case SignalSpace => i in s.sigSpace
  }

  predicate EnabledSettle(s: State, i: nat, op: SettleOp)
    requires i < |s.lanes|
  {
    var l := s.lanes[i];
    match op
    case FinishDrain =>
      Running(s) && IsLive(s, i) && l.window == l.head == l.pub
      && (l.queued || (s.mode.Awake? && !s.scanning))
    case RecheckFull => s.pc == Rechecking(i) && l.tail != l.head
    case RecheckEmpty => s.pc == Rechecking(i) && l.tail == l.head
    case Claim => s.pc == Claiming(i)
    case CheckDropped => s.pc == Leaving(i)
    case CheckUndrained => s.pc == LeavingDropped(i) && l.tail != l.head
    case RetireDrained => s.pc == LeavingDropped(i) && l.tail == l.head && 0 < s.registered
  }

  predicate EnabledManage(s: State, i: nat, op: ManageOp)
    requires i < |s.lanes|
  {
    var l := s.lanes[i];
    match op
    case Pause =>
      Running(s) && s.mode.Awake? && !s.scanning && IsLive(s, i) && l.pub == l.head
    case Resume => Running(s) && s.mode.Awake? && !s.scanning && IsLive(s, i) && l.paused
    case CloseFlag =>
      Running(s) && s.mode.Awake? && !s.scanning && IsLive(s, i) && l.pub == l.head
    case CloseRetire => s.pc == ClosingLane(i) && 0 < s.registered
    case RetirePaused =>
      Running(s) && !s.scanning && s.liveSenders == 0 && IsLive(s, i) && l.paused
      && l.tail == l.head && 0 < s.registered
  }

  predicate EnabledRequeue(s: State, i: nat, op: RequeueOp)
    requires i < |s.lanes|
  {
    var l := s.lanes[i];
    match op
    case RSwap => s.pc == MarkSwap(i)
    case RPageBit => s.pc == MarkPageBit(i)
    case RGroupBit => s.pc == MarkGroupBit(i)
    case RQueue => s.pc == Queueing(i)
  }

  /** A registered receive has collected everything and found no lane with values. */
  predicate FoundNothing(s: State) {
    && Running(s) && s.mode.Waiting? && s.swept && s.todo == {}
    && NothingQueued(s) && s.oweSpace == {} && s.sigSpace == {}
  }

  predicate EnabledReceiver(s: State, op: WaitOp) {
    match op
    case SelfNotify => Running(s) && s.mode.Awake?
    case PollAll => Running(s) && s.mode.Awake?
    case ScanStart => Running(s) && s.mode.Awake? && !s.scanning
    case ScanEnd => Running(s) && s.scanning
    case WaitRegister => Running(s) && s.mode.Awake? && !s.scanning && s.oweSpace == {} && s.sigSpace == {}
    case Unregister => Running(s) && (s.mode.Waiting? || s.mode.Waking?)
    case SeeLive => FoundNothing(s) && 0 < s.liveSenders
    case SeePaused =>
      FoundNothing(s) && s.liveSenders == 0 && 0 < s.registered
      && forall i | 0 <= i < |s.lanes| && s.lanes[i].paused :: s.lanes[i].head < s.lanes[i].tail
    case Decline => s.pc.Deciding?
    case Sleep => s.pc.Deciding? && s.mode.Waiting? && s.mode.snap == s.dataGen
    case Wake => s.mode.Sleeping?
  }

  predicate Enabled(s: State, a: Step) {
    match a
    case Register(slot, cap) =>
      0 < s.liveSenders && 0 < cap && forall j | 0 <= j < |s.lanes| :: s.lanes[j].retired || s.lanes[j].slot != slot
    case ByPublish(i, op) => i < |s.lanes| && EnabledPublish(s, i, op)
    case ByMark(i, op) => i < |s.lanes| && EnabledMark(s, i, op)
    case BySpace(i, op) => i < |s.lanes| && EnabledSpace(s, i, op)
    case ByCollect(op) => EnabledCollect(s, op)
    case ByConsume(i, op) => i < |s.lanes| && EnabledConsume(s, i, op)
    case BySettle(i, op) => i < |s.lanes| && EnabledSettle(s, i, op)
    case ByManage(i, op) => i < |s.lanes| && EnabledManage(s, i, op)
    case ByRequeue(i, op) => i < |s.lanes| && EnabledRequeue(s, i, op)
    case ByReceiver(op) => EnabledReceiver(s, op)
  }

  /** Every unpaused adopted lane joins the rotation. */
  function QueueAll(lanes: seq<Lane>): seq<Lane> {
    seq(|lanes|, j requires 0 <= j < |lanes| =>
      if lanes[j].retired || lanes[j].paused then lanes[j] else lanes[j].(queued := true))
  }

  function ApplyPublish(s: State, i: nat, op: PublishOp): State
    requires i < |s.lanes| && EnabledPublish(s, i, op)
  {
    var l := s.lanes[i];
    match op
    case Push(signal) =>
      s.(lanes := s.lanes[i := l.(cursor := l.cursor + 1, pc := Pushed(signal), plain := l.plain && signal)])
    case PushDeferred =>
      s.(lanes := s.lanes[i := l.(cursor := l.cursor + 1, plain := false)])
    case Flush =>
      s.(lanes := s.lanes[i := l.(tail := l.cursor, pc := if l.pc.signal then Flushed else Ready)])
    case FlushDeferred =>
      s.(lanes := s.lanes[i := l.(tail := l.cursor, pc := Flushed)])
    case DropFlush =>
      s.(lanes := s.lanes[i := l.(tail := l.cursor, pc := Closing)])
    case DropFlag => s.(lanes := s.lanes[i := l.(dropped := true, pc := Flushed)])
  }

  function ApplyMark(s: State, i: nat, op: MarkOp): State
    requires i < |s.lanes| && EnabledMark(s, i, op)
  {
    var l := s.lanes[i];
    match op
    case Swap =>
      s.(lanes := s.lanes[i := l.(pending := true, signaled := l.tail,
                   pc := if !l.pending then MarkPage else if l.dropped then Leave else Ready)])
    case PageBit =>
      var empty := PageEmpty(s.bits, l.slot.page);
      s.(lanes := s.lanes[i := l.(pc := if empty then MarkGroup else AfterMark(l))],
         bits := s.bits + {l.slot}, setter := s.setter[l.slot := i],
        opener := if empty then s.opener[l.slot.page := i] else s.opener)
    case GroupBit =>
      s.(lanes := s.lanes[i := l.(pc := AfterMark(l))],
         groupBits := s.groupBits + {l.slot.page})
    case LeaveLive =>
      s.(lanes := s.lanes[i := l.(live := false, pc := Notify)],
         liveSenders := s.liveSenders - 1, leaver := i)
    case NotifyData =>
      s.(lanes := s.lanes[i := l.(pc := if s.waiting then Signal else AfterSend(l))],
         dataGen := s.dataGen + 1, signaler := i)
    case SignalData =>
      s.(lanes := s.lanes[i := l.(pc := AfterSend(l))],
         mode := if s.mode.Sleeping? then Waking else s.mode)
  }

  function ApplySpace(s: State, i: nat, op: SpaceOp): State
    requires i < |s.lanes| && EnabledSpace(s, i, op)
  {
    var l := s.lanes[i];
    match op
    case SpaceRegister => s.(lanes := s.lanes[i := l.(pc := Registered(l.spaceGen))])
    case SpaceFull => s.(lanes := s.lanes[i := l.(pc := Full(l.pc.snap))])
    case SpaceCheck =>
      s.(lanes := s.lanes[i := l.(pc := if l.closed then Ready else Checked(l.pc.snap))])
    case SpaceSleep =>
      s.(lanes := s.lanes[i := l.(pc := if l.pc.snap == l.spaceGen then Asleep(l.pc.snap) else Ready)])
    case SpaceWake => s.(lanes := s.lanes[i := l.(pc := Ready)])
  }

  function ApplyCollect(s: State, op: CollectOp): State
    requires EnabledCollect(s, op)
  {
    match op
    case Refresh => s.(known := |s.lanes|)
    case CollectStart =>
      s.(known := |s.lanes|, pc := Scan, todo := (set p | p in s.pageLane :: p.group), swept := s.mode.Waiting?)
    case SkipGroup(g) => s.(todo := s.todo - {g})
    case TakeGroup(g) =>
      s.(todo := s.todo - {g},
         claimPages := (set p | p in s.groupBits && p.group == g),
         groupBits := (set p | p in s.groupBits && p.group != g))
    case RefreshPage => s.(known := |s.lanes|, pc := Known)
    case TakePage(p) =>
      s.(pc := Taken, claimPages := s.claimPages - {p},
         claimSlots := (set sl | sl in s.bits && sl.page == p),
         bits := (set sl | sl in s.bits && sl.page != p))
    case DropPage(p) => s.(pc := Scan, claimPages := s.claimPages - {p})
    case RefreshLanes => s.(known := |s.lanes|, pc := Lanes)
    case ProcessLane(i) =>
      var l := s.lanes[i];
      s.(lanes := s.lanes[i := if !l.paused && l.pending then l.(queued := true) else l],
         claimSlots := s.claimSlots - {l.slot})
    case ProcessVacant(sl) => s.(claimSlots := s.claimSlots - {sl})
    case EndPage => s.(pc := Scan)
    case CollectEnd => s.(pc := Idle, swept := s.swept && s.todo == {})
  }

  function ApplyConsume(s: State, i: nat, op: ConsumeOp): State
    requires i < |s.lanes| && EnabledConsume(s, i, op)
  {
    var l := s.lanes[i];
    match op
    case Prefetch => s.(lanes := s.lanes[i := l.(window := l.tail)])
    case Pop =>
      s.(lanes := s.lanes[i := l.(head := l.head + 1)],
         pc := if l.queued || l.paused then Idle else MarkSwap(i))
    case TargetPop => s.(lanes := s.lanes[i := l.(head := l.head + 1)],
         pc := MarkSwap(i))
    case Release => s.(lanes := s.lanes[i := l.(pub := l.head)], oweSpace := s.oweSpace + {i})
    case NotifySpace =>
      s.(lanes := s.lanes[i := l.(spaceGen := l.spaceGen + 1)],
         oweSpace := s.oweSpace - {i},
        sigSpace := if SpaceWaiting(l.pc) then s.sigSpace + {i} else s.sigSpace)
    case SignalSpace =>
      s.(lanes := s.lanes[i := if l.pc.Asleep? then l.(pc := Ready) else l],
         sigSpace := s.sigSpace - {i})
  }

  function ApplySettle(s: State, i: nat, op: SettleOp): State
    requires i < |s.lanes| && EnabledSettle(s, i, op)
  {
    var l := s.lanes[i];
    match op
    case FinishDrain => s.(lanes := s.lanes[i := l.(pending := false)],
         pc := Rechecking(i))
    case RecheckFull => s.(lanes := s.lanes[i := l.(window := l.tail)], pc := Claiming(i))
    case RecheckEmpty =>
      s.(lanes := s.lanes[i := l.(window := l.tail, queued := false)],
         pc := Leaving(i), seenEmpty := s.seenEmpty + {i})
    case Claim =>
      s.(lanes := s.lanes[i := l.(pending := true)],
         pc := if l.queued || l.paused then Idle else Targeting(i))
    case CheckDropped => s.(pc := if l.dropped then LeavingDropped(i) else Idle)
    case CheckUndrained => s.(pc := Idle)
    case RetireDrained =>
      s.(lanes := s.lanes[i := l.(retired := true, paused := false)],
         pc := Idle, registered := s.registered - 1)
  }

  function ApplyManage(s: State, i: nat, op: ManageOp): State
    requires i < |s.lanes| && EnabledManage(s, i, op)
  {
    var l := s.lanes[i];
    match op
    case Pause => s.(lanes := s.lanes[i := l.(paused := true, queued := false)])
    case Resume => s.(lanes := s.lanes[i := l.(paused := false)],
         pc := MarkSwap(i))
    case CloseFlag =>
      s.(lanes := s.lanes[i := l.(closed := true)],
         pc := ClosingLane(i), oweSpace := s.oweSpace + {i})
    case CloseRetire =>
      s.(lanes := s.lanes[i := l.(retired := true, explicit := true, queued := false, paused := false)],
         pc := Idle, registered := s.registered - 1)
    case RetirePaused =>
      s.(lanes := s.lanes[i := l.(retired := true, paused := false)],
         registered := s.registered - 1)
  }

  function ApplyRequeue(s: State, i: nat, op: RequeueOp): State
    requires i < |s.lanes| && EnabledRequeue(s, i, op)
  {
    var l := s.lanes[i];
    match op
    case RSwap =>
      s.(lanes := s.lanes[i := l.(pending := true)],
         pc := if l.pending then Queueing(i) else MarkPageBit(i))
    case RPageBit =>
      s.(bits := s.bits + {l.slot}, setter := s.setter[l.slot := i],
         pc := if PageEmpty(s.bits, l.slot.page) then MarkGroupBit(i) else Queueing(i))
    case RGroupBit => s.(groupBits := s.groupBits + {l.slot.page}, pc := Queueing(i))
    case RQueue => s.(lanes := s.lanes[i := l.(queued := true)],
         pc := Idle)
  }

  function ApplyReceiver(s: State, op: WaitOp): State
    requires EnabledReceiver(s, op)
  {
    match op
    case SelfNotify => s.(dataGen := s.dataGen + 1)
    case PollAll => s.(known := |s.lanes|, lanes := QueueAll(s.lanes))
    case ScanStart =>
      s.(known := |s.lanes|, lanes := QueueAll(s.lanes), scanning := true, seenEmpty := {},
         scanSet := (map j | 0 <= j < |s.lanes| && !s.lanes[j].retired && !s.lanes[j].paused :: s.lanes[j].tail))
    case ScanEnd => s.(scanning := false)
    case WaitRegister => s.(mode := Waiting(s.dataGen), waiting := true, swept := false)
    case Unregister => s.(mode := Awake, waiting := false)
    case SeeLive => s.(pc := Deciding, sawLive := true)
    case SeePaused => s.(pc := Deciding, sawLive := false)
    case Decline => s.(pc := Idle, mode := Awake, waiting := false)
    case Sleep => s.(pc := Idle, mode := Sleeping(s.mode.snap))
    case Wake => s.(mode := Waking)
  }

  /** One step. The receiver and the senders run concurrently, so any enabled
      step may come next. */
  function Apply(s: State, a: Step): State
    requires Enabled(s, a)
  {
    match a
    case Register(slot, cap) =>
      s.(lanes := s.lanes + [NewLane(slot, cap)],
         pageLane := if slot.page in s.pageLane then s.pageLane else s.pageLane[slot.page := |s.lanes|],
         registered := s.registered + 1, liveSenders := s.liveSenders + 1)
    case ByPublish(i, op) => ApplyPublish(s, i, op)
    case ByMark(i, op) => ApplyMark(s, i, op)
    case BySpace(i, op) => ApplySpace(s, i, op)
    case ByCollect(op) => ApplyCollect(s, op)
    case ByConsume(i, op) => ApplyConsume(s, i, op)
    case BySettle(i, op) => ApplySettle(s, i, op)
    case ByManage(i, op) => ApplyManage(s, i, op)
    case ByRequeue(i, op) => ApplyRequeue(s, i, op)
    case ByReceiver(op) => ApplyReceiver(s, op)
  }

  ghost predicate Next(s: State, s': State) {
    exists a: Step :: Enabled(s, a) && s' == Apply(s, a)
  }

  /** A finite run of the channel from its creation. */
  ghost predicate IsRun(run: seq<State>) {
    && |run| > 0
    && (exists cap: nat :: 0 < cap && run[0] == Init(cap))
    && forall k | 0 <= k < |run| - 1 :: Next(run[k], run[k + 1])
  }
}
