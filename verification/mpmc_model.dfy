/** MPMC staging as a state machine: receivers move values out of sender rings
    into private, stealable and orphaned queues, and decide when the channel is
    drained. One atomic operation, or one critical section of a queue mutex,
    per step; any number of senders and receivers.

    A lane's ring is the sequence of its unread values; `held` is the exclusive
    lane token (its own protocol is in MpmcTokens). `ready` holds the groups whose
    summary word is non-zero. */
module MpmcModel {

  import opened Basics

  /** Where a receiver goes once its publication has ended. */
  datatype After =
    | ToIdle
    | ToSteal(gen: nat, todo: set<nat>)
    | ToAcquire(gen: nat, saw: int, left: set<nat>)
    | ToLeave

  /** `gen` is the generation snapshot the running scan is based on. `saw` is a
      group found ready before the queues were scanned, or -1. */
  datatype Pc =
    | Idle
    | WorkScan(gen: nat)
    | ReadyScan(gen: nat)
    | StealScan(gen: nat, todo: set<nat>)
    | StealOpen(gen: nat, todo: set<nat>, victim: nat)
    | Stolen
    | Acquire(gen: nat, saw: int, left: set<nat>)
    | AcquireOpen(gen: nat, saw: int, left: set<nat>)
    | Holding(lane: nat)
    | Staging(lane: nat)
    | StagePrivate(lane: nat)
    | StageLocal(lane: nat)
    | Staged(lane: nat)
    | CheckGen(gen: nat, saw: int)
    | CheckFlight(gen: nat, saw: int)
    | CheckSenders(gen: nat, saw: int)
    | CheckLanes(gen: nat, saw: int)
    | CheckFlightAgain(gen: nat, saw: int)
    | CheckGenAgain(gen: nat)
    | Drained
    | CloneOpen | ClonePushed | CloneListed(child: nat) | CloneCounted
    | DropOpen | DropPrivate | DropTaken | DropMoved | DropUnlisted | Leaving
    | EndGen(next: After)      // publication over, generation not yet advanced
    | EndFlight(next: After)   // generation advanced, still counted in flight
    | Unborn
    | Dead

  datatype Recv = Recv(
    pc: Pc,
    listed: bool,      // in the shared list of work queues
    alive: bool,       // counted in live_receivers
    private: seq<nat>,
    local: seq<nat>,
    hand: seq<nat>)    // values taken from one queue and not yet in the next

  datatype Lane = Lane(
    unread: seq<nat>,
    dropped: bool,     // the sender closed its ring
    live: bool,        // counted in live_senders
    held: bool,
    retired: bool)

  datatype State = State(
    recvs: seq<Recv>,
    lanes: seq<Lane>,
    orphan: seq<nat>,
    gen: nat,
    inFlight: nat,
    open: nat,               // auxiliary: publications that have not advanced the generation
    liveReceivers: nat,
    liveSenders: nat,
    registeredLanes: nat,
    ready: set<nat>,
    groups: set<nat>,          // the ready groups registered so far
    sent: multiset<nat>,       // auxiliary: every accepted value
    delivered: multiset<nat>)  // auxiliary: every value returned by a receive

  /** A publication is in flight from begin until the in-flight decrement. */
  predicate InFlight(pc: Pc) {
    pc.StealOpen? || pc.Stolen? || pc.AcquireOpen? || pc.Holding? || pc.Staging? || pc.StagePrivate?
    || pc.StageLocal? || pc.Staged? || pc.CloneOpen? || pc.ClonePushed? || pc.CloneListed? || pc.CloneCounted?
    || pc.DropOpen? || pc.DropPrivate? || pc.DropTaken? || pc.DropMoved? || pc.DropUnlisted?
    || pc.EndGen? || pc.EndFlight?
  }

  predicate Open(pc: Pc) { InFlight(pc) && !pc.EndFlight? }

  datatype SenderOp =
    | Register | Send(v: nat) | DropRing | LeaveSender | MarkReady(g: nat) | AddGroup(g: nat)

  datatype PopOp = PopPrivate | PopLocal | StartScan | PopOrphan | OrphanEmpty

  datatype ScanOp =
    | SawReady(g: nat) | LoadQueues
    | SkipQueue(q: nat) | StealBegin(q: nat) | StealDone | SkipGroup(g: nat) | AcquireBegin | AcquireDone

  datatype CheckOp =
    | GenSame | FlightNone | SendersNone | LanesNone | FlightNoneAgain | GenSameAgain | Retry

  datatype StealOp = StealTake | StealMiss | StealPush

  /** `GetNone`: the claim failed or its page had no lane; the scan goes on without the
      groups in `passed`, whether or not they are ready again. */
  datatype HoldOp =
    | TakeBit(g: nat) | GetLane(l: nat) | GetNone(passed: set<nat>)
    | TakeBatch(n: nat) | ReadLive | PushPrivate | PushLocal | Requeue | Retire

  datatype EndOp = AdvanceGen | LeaveFlight

  datatype CloneOp = CloneBegin | ClonePush | CloneList | CloneCount | CloneNotify | Born

  datatype DropOp = DropBegin | DropPrivateOut | DropLocalOut | DropPush | DropUnlist | DropEnd | DropCount

  datatype Step =
    | BySender(l: nat, sop: SenderOp)
    | ByPop(r: nat, pop: PopOp)
    | ByScan(r: nat, cop: ScanOp)
    | ByCheck(r: nat, kop: CheckOp)
    | BySteal(r: nat, top: StealOp)
    | ByHold(r: nat, hop: HoldOp)
    | ByEnd(r: nat, eop: EndOp)
    | ByClone(r: nat, nop: CloneOp)
    | ByDrop(r: nat, dop: DropOp)

  function Init(): State {
    State([Recv(Idle, true, true, [], [], [])], [Lane([], false, true, false, false)], [],
          0, 0, 0, 1, 1, 1, {}, {0}, multiset{}, multiset{})
  }

  // ------------------------------------------------------------------ senders

  predicate EnabledSender(s: State, l: nat, op: SenderOp) {
    match op
    case Register => 0 < s.liveSenders
    case Send(v) => l < |s.lanes| && !s.lanes[l].dropped
    case DropRing => l < |s.lanes| && !s.lanes[l].dropped
    case LeaveSender => l < |s.lanes| && s.lanes[l].dropped && s.lanes[l].live && 0 < s.liveSenders
    case MarkReady(g) => g in s.groups
    case AddGroup(g) => true
  }

  function ApplySender(s: State, l: nat, op: SenderOp): State
    requires EnabledSender(s, l, op)
  {
    match op
    case Register =>
      s.(lanes := s.lanes + [Lane([], false, true, false, false)],
         liveSenders := s.liveSenders + 1, registeredLanes := s.registeredLanes + 1)
    case Send(v) =>
      s.(lanes := s.lanes[l := s.lanes[l].(unread := s.lanes[l].unread + [v])], sent := s.sent + multiset{v})
    case DropRing => s.(lanes := s.lanes[l := s.lanes[l].(dropped := true)])
    case LeaveSender => s.(lanes := s.lanes[l := s.lanes[l].(live := false)], liveSenders := s.liveSenders - 1)
    case MarkReady(g) => s.(ready := s.ready + {g})
    case AddGroup(g) => s.(groups := s.groups + {g})
  }

  // ----------------------------------------------------- receivers: empty scan

  predicate EnabledPop(s: State, r: nat, op: PopOp)
    requires r < |s.recvs|
  {
    var me := s.recvs[r];
    match op
    case PopPrivate => me.pc.Idle? && me.private != []
    case PopLocal => me.pc.Idle? && me.private == [] && me.local != []
    case StartScan => me.pc.Idle? && me.private == [] && me.local == []
    case PopOrphan => me.pc.WorkScan? && s.orphan != []
    case OrphanEmpty => me.pc.WorkScan? && s.orphan == []
  }

  predicate EnabledScan(s: State, r: nat, op: ScanOp)
    requires r < |s.recvs|
  {
    var me := s.recvs[r];
    match op
    case SawReady(g) => me.pc.ReadyScan? && g in s.ready && g in s.groups
    case LoadQueues => me.pc.ReadyScan?
    case SkipQueue(q) =>
      me.pc.StealScan? && q in me.pc.todo && q < |s.recvs| && (q == r || s.recvs[q].local == [])
    case StealBegin(q) => me.pc.StealScan? && q in me.pc.todo && q < |s.recvs| && q != r
    case StealDone => me.pc.StealScan? && me.pc.todo == {}
    case SkipGroup(g) => me.pc.Acquire? && g in me.pc.left && g !in s.ready
    case AcquireBegin => me.pc.Acquire?
    case AcquireDone => me.pc.Acquire? && me.pc.left == {}
  }

  function ApplyPop(s: State, r: nat, op: PopOp): State
    requires r < |s.recvs| && EnabledPop(s, r, op)
  {
    var me := s.recvs[r];
    match op
    case PopPrivate =>
      s.(recvs := s.recvs[r := me.(private := me.private[1..])], delivered := s.delivered + multiset{me.private[0]})
    case PopLocal =>
      s.(recvs := s.recvs[r := me.(local := me.local[1..])], delivered := s.delivered + multiset{me.local[0]})
    case StartScan => s.(recvs := s.recvs[r := me.(pc := WorkScan(s.gen))])
    case PopOrphan =>
      s.(recvs := s.recvs[r := me.(pc := Idle)], orphan := s.orphan[1..],
         delivered := s.delivered + multiset{s.orphan[0]})
    case OrphanEmpty => s.(recvs := s.recvs[r := me.(pc := ReadyScan(me.pc.gen))])
  }

  function ApplyScan(s: State, r: nat, op: ScanOp): State
    requires r < |s.recvs| && EnabledScan(s, r, op)
  {
    var me := s.recvs[r];
    match op
    case SawReady(g) =>
      s.(recvs := s.recvs[r := me.(pc := Acquire(me.pc.gen, g, s.groups))])
    case LoadQueues =>
      s.(recvs := s.recvs[r := me.(pc := StealScan(me.pc.gen,
                                     (set q | 0 <= q < |s.recvs| && s.recvs[q].listed)))])
    case SkipQueue(q) => s.(recvs := s.recvs[r := me.(pc := StealScan(me.pc.gen, me.pc.todo - {q}))])
    case StealBegin(q) =>
      s.(recvs := s.recvs[r := me.(pc := StealOpen(me.pc.gen, me.pc.todo, q))],
         inFlight := s.inFlight + 1, open := s.open + 1)
    case StealDone =>
      s.(recvs := s.recvs[r := me.(pc := Acquire(me.pc.gen, -1, s.groups))])
    case SkipGroup(g) =>
      s.(recvs := s.recvs[r := me.(pc := Acquire(me.pc.gen, me.pc.saw, me.pc.left - {g}))])
    case AcquireBegin =>
      s.(recvs := s.recvs[r := me.(pc := AcquireOpen(me.pc.gen, me.pc.saw, me.pc.left))],
         inFlight := s.inFlight + 1, open := s.open + 1)
    case AcquireDone => s.(recvs := s.recvs[r := me.(pc := CheckGen(me.pc.gen, me.pc.saw))])
  }

  /** `empty_scan_state`: every read that stops the decision goes back to Idle. */
  predicate EnabledCheck(s: State, r: nat, op: CheckOp)
    requires r < |s.recvs|
  {
    var pc := s.recvs[r].pc;
    match op
    case GenSame => pc.CheckGen? && s.gen == pc.gen
    case FlightNone => pc.CheckFlight? && s.inFlight == 0
    case SendersNone => pc.CheckSenders? && s.liveSenders == 0
    case LanesNone => pc.CheckLanes? && s.registeredLanes == 0
    case FlightNoneAgain => pc.CheckFlightAgain? && s.inFlight == 0
    case GenSameAgain => pc.CheckGenAgain? && s.gen == pc.gen
    case Retry =>
      || (pc.CheckGen? && s.gen != pc.gen) || (pc.CheckFlight? && s.inFlight != 0)
      || (pc.CheckSenders? && s.liveSenders != 0) || (pc.CheckLanes? && s.registeredLanes != 0)
      || (pc.CheckFlightAgain? && s.inFlight != 0) || (pc.CheckGenAgain? && s.gen != pc.gen) || pc.Drained?
  }

  function ApplyCheck(s: State, r: nat, op: CheckOp): State
    requires r < |s.recvs| && EnabledCheck(s, r, op)
  {
    var me := s.recvs[r];
    var next :=
      match op
      case GenSame => CheckFlight(me.pc.gen, me.pc.saw)
      case FlightNone => CheckSenders(me.pc.gen, me.pc.saw)
      case SendersNone => CheckLanes(me.pc.gen, me.pc.saw)
      case LanesNone => CheckFlightAgain(me.pc.gen, me.pc.saw)
      case FlightNoneAgain => CheckGenAgain(me.pc.gen)
      case GenSameAgain => Drained
      case Retry => Idle;
    s.(recvs := s.recvs[r := me.(pc := next)])
  }

  // -------------------------------------------------- receivers: moving values

  function Resumed(next: After): Pc {
    match next
    case ToIdle => Idle
    case ToSteal(gen, todo) => StealScan(gen, todo)
    case ToAcquire(gen, saw, left) => Acquire(gen, saw, left)
    case ToLeave => Leaving
  }

  predicate EnabledSteal(s: State, r: nat, op: StealOp)
    requires r < |s.recvs|
  {
    var me := s.recvs[r];
    match op
    case StealTake => me.pc.StealOpen? && me.pc.victim < |s.recvs| && me.pc.victim != r && s.recvs[me.pc.victim].local != []
    case StealMiss => me.pc.StealOpen? && me.pc.victim < |s.recvs| && s.recvs[me.pc.victim].local == []
    case StealPush => me.pc.Stolen?
  }

  function ApplySteal(s: State, r: nat, op: StealOp): State
    requires r < |s.recvs| && EnabledSteal(s, r, op)
  {
    var me := s.recvs[r];
    match op
    case StealTake =>
      var q := s.recvs[me.pc.victim].local;
      var n := Transfer(|q| - 1);
      s.(recvs := s.recvs[me.pc.victim := s.recvs[me.pc.victim].(local := q[1 + n..])]
                         [r := me.(pc := Stolen, hand := q[1..1 + n])],
         delivered := s.delivered + multiset{q[0]})
    case StealMiss => s.(recvs := s.recvs[r := me.(pc := EndGen(ToSteal(me.pc.gen, me.pc.todo - {me.pc.victim})))])
    case StealPush => s.(recvs := s.recvs[r := me.(pc := EndGen(ToIdle), local := me.local + me.hand, hand := [])])
  }

  predicate EnabledHold(s: State, r: nat, op: HoldOp)
    requires r < |s.recvs|
  {
    var me := s.recvs[r];
    match op
    case TakeBit(g) => me.pc.AcquireOpen? && g in s.ready
    case GetLane(l) => me.pc.AcquireOpen? && l < |s.lanes| && !s.lanes[l].held && !s.lanes[l].retired
    case GetNone(passed) => me.pc.AcquireOpen?
    case TakeBatch(n) => me.pc.Holding? && me.pc.lane < |s.lanes| && 1 <= n <= PREFETCH_LIMIT && n <= |s.lanes[me.pc.lane].unread|
    case ReadLive => me.pc.Staging?
    case PushPrivate => me.pc.StagePrivate?
    case PushLocal => me.pc.StageLocal?
    case Requeue => (me.pc.Holding? || me.pc.Staged?) && me.pc.lane < |s.lanes|
    case Retire =>
      (me.pc.Holding? || me.pc.Staged?) && me.pc.lane < |s.lanes| && s.lanes[me.pc.lane].unread == []
      && s.lanes[me.pc.lane].dropped && 0 < s.registeredLanes
  }

  function ApplyHold(s: State, r: nat, op: HoldOp): State
    requires r < |s.recvs| && EnabledHold(s, r, op)
  {
    var me := s.recvs[r];
    match op
    case TakeBit(g) => s.(ready := s.ready - {g})
    case GetLane(l) =>
      s.(recvs := s.recvs[r := me.(pc := Holding(l))], lanes := s.lanes[l := s.lanes[l].(held := true)])
    case GetNone(passed) =>
      s.(recvs := s.recvs[r := me.(pc := EndGen(ToAcquire(me.pc.gen, me.pc.saw, me.pc.left - passed)))])
    case TakeBatch(n) =>
      var ring := s.lanes[me.pc.lane].unread;
      s.(recvs := s.recvs[r := me.(pc := Staging(me.pc.lane), hand := ring[1..n])],
         lanes := s.lanes[me.pc.lane := s.lanes[me.pc.lane].(unread := ring[n..])],
         delivered := s.delivered + multiset{ring[0]})
    case ReadLive =>
      s.(recvs := s.recvs[r := me.(pc := if s.liveReceivers == 1 then StagePrivate(me.pc.lane) else StageLocal(me.pc.lane))])
    case PushPrivate =>
      s.(recvs := s.recvs[r := me.(pc := Staged(me.pc.lane), private := me.private + me.hand, hand := [])])
    case PushLocal =>
      s.(recvs := s.recvs[r := me.(pc := Staged(me.pc.lane), local := me.local + me.hand, hand := [])])
    case Requeue =>
      s.(recvs := s.recvs[r := me.(pc := EndGen(ToIdle))],
         lanes := s.lanes[me.pc.lane := s.lanes[me.pc.lane].(held := false)])
    case Retire =>
      s.(recvs := s.recvs[r := me.(pc := EndGen(ToIdle))],
         lanes := s.lanes[me.pc.lane := s.lanes[me.pc.lane].(held := false, retired := true)],
         registeredLanes := s.registeredLanes - 1)
  }

  predicate EnabledEnd(s: State, r: nat, op: EndOp)
    requires r < |s.recvs|
  {
    var me := s.recvs[r];
    match op
    case AdvanceGen => me.pc.EndGen? && 0 < s.open
    case LeaveFlight => me.pc.EndFlight? && 0 < s.inFlight
  }

  function ApplyEnd(s: State, r: nat, op: EndOp): State
    requires r < |s.recvs| && EnabledEnd(s, r, op)
  {
    var me := s.recvs[r];
    match op
    case AdvanceGen =>
      s.(recvs := s.recvs[r := me.(pc := EndFlight(me.pc.next))], gen := s.gen + 1, open := s.open - 1)
    case LeaveFlight =>
      s.(recvs := s.recvs[r := me.(pc := Resumed(me.pc.next))], inFlight := s.inFlight - 1)
  }

  // ------------------------------------------------ receivers: clone and drop

  predicate EnabledClone(s: State, r: nat, op: CloneOp)
    requires r < |s.recvs|
  {
    var me := s.recvs[r];
    match op
    case CloneBegin => me.pc.Idle?
    case ClonePush => me.pc.CloneOpen?
    case CloneList => me.pc.ClonePushed?
    case CloneCount => me.pc.CloneListed? && me.pc.child < |s.recvs| && me.pc.child != r
    case CloneNotify => me.pc.CloneCounted?
    case Born => me.pc.Unborn? && me.alive
  }

  function ApplyClone(s: State, r: nat, op: CloneOp): State
    requires r < |s.recvs| && EnabledClone(s, r, op)
  {
    var me := s.recvs[r];
    match op
    case CloneBegin =>
      s.(recvs := s.recvs[r := me.(pc := CloneOpen)], inFlight := s.inFlight + 1, open := s.open + 1)
    case ClonePush =>
      s.(recvs := s.recvs[r := me.(pc := ClonePushed, local := me.local + me.private, private := [])])
    case CloneList =>
      s.(recvs := s.recvs[r := me.(pc := CloneListed(|s.recvs|))] + [Recv(Unborn, true, false, [], [], [])])
    case CloneCount =>
      s.(recvs := s.recvs[me.pc.child := s.recvs[me.pc.child].(alive := true)][r := me.(pc := CloneCounted)],
         liveReceivers := s.liveReceivers + 1)
    case CloneNotify => s.(recvs := s.recvs[r := me.(pc := EndGen(ToIdle))], gen := s.gen + 1)
    case Born => s.(recvs := s.recvs[r := me.(pc := Idle)])
  }

  predicate EnabledDrop(s: State, r: nat, op: DropOp)
    requires r < |s.recvs|
  {
    var me := s.recvs[r];
    match op
    case DropBegin => me.pc.Idle?
    case DropPrivateOut => me.pc.DropOpen?
    case DropLocalOut => me.pc.DropPrivate?
    case DropPush => me.pc.DropTaken?
    case DropUnlist => me.pc.DropMoved?
    case DropEnd => me.pc.DropUnlisted?
    case DropCount => me.pc.Leaving? && 0 < s.liveReceivers
  }

  function ApplyDrop(s: State, r: nat, op: DropOp): State
    requires r < |s.recvs| && EnabledDrop(s, r, op)
  {
    var me := s.recvs[r];
    match op
    case DropBegin =>
      s.(recvs := s.recvs[r := me.(pc := DropOpen)], inFlight := s.inFlight + 1, open := s.open + 1)
    case DropPrivateOut =>
      s.(recvs := s.recvs[r := me.(pc := DropPrivate, private := [])], orphan := s.orphan + me.private)
    case DropLocalOut => s.(recvs := s.recvs[r := me.(pc := DropTaken, hand := me.local, local := [])])
    case DropPush => s.(recvs := s.recvs[r := me.(pc := DropMoved, hand := [])], orphan := s.orphan + me.hand)
    case DropUnlist => s.(recvs := s.recvs[r := me.(pc := DropUnlisted, listed := false)], gen := s.gen + 1)
    case DropEnd => s.(recvs := s.recvs[r := me.(pc := EndGen(ToLeave))])
    case DropCount => s.(recvs := s.recvs[r := me.(pc := Dead, alive := false)], liveReceivers := s.liveReceivers - 1)
  }

  // --------------------------------------------------------------------- runs

  predicate Enabled(s: State, a: Step) {
    match a
    case BySender(l, op) => EnabledSender(s, l, op)
    case ByPop(r, op) => r < |s.recvs| && EnabledPop(s, r, op)
    case ByScan(r, op) => r < |s.recvs| && EnabledScan(s, r, op)
    case ByCheck(r, op) => r < |s.recvs| && EnabledCheck(s, r, op)
    case BySteal(r, op) => r < |s.recvs| && EnabledSteal(s, r, op)
    case ByHold(r, op) => r < |s.recvs| && EnabledHold(s, r, op)
    case ByEnd(r, op) => r < |s.recvs| && EnabledEnd(s, r, op)
    case ByClone(r, op) => r < |s.recvs| && EnabledClone(s, r, op)
    case ByDrop(r, op) => r < |s.recvs| && EnabledDrop(s, r, op)
  }

  function Apply(s: State, a: Step): State
    requires Enabled(s, a)
  {
    match a
    case BySender(l, op) => ApplySender(s, l, op)
    case ByPop(r, op) => ApplyPop(s, r, op)
    case ByScan(r, op) => ApplyScan(s, r, op)
    case ByCheck(r, op) => ApplyCheck(s, r, op)
    case BySteal(r, op) => ApplySteal(s, r, op)
    case ByHold(r, op) => ApplyHold(s, r, op)
    case ByEnd(r, op) => ApplyEnd(s, r, op)
    case ByClone(r, op) => ApplyClone(s, r, op)
    case ByDrop(r, op) => ApplyDrop(s, r, op)
  }

  ghost predicate Next(s: State, s': State) {
    exists a: Step :: Enabled(s, a) && s' == Apply(s, a)
  }

  ghost predicate IsRun(run: seq<State>) {
    |run| > 0 && run[0] == Init() && forall k | 0 <= k < |run| - 1 :: Next(run[k], run[k + 1])
  }
}
