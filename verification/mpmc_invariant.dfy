/** The inductive invariant of MPMC staging. */
module MpmcInvariant {
  import opened Basics
  import opened MpmcModel

  // ----------------------------------------------------------------- counters

  /** What the counters of the channel count. */
  datatype RecvCounter = Publications | OpenPublications | LiveReceivers

  datatype LaneCounter = RegisteredLanes | LiveSenders

  predicate CountsRecv(c: RecvCounter, me: Recv) {
    match c
    case Publications => InFlight(me.pc)
    case OpenPublications => Open(me.pc)
    case LiveReceivers => me.alive
  }

  predicate CountsLane(c: LaneCounter, l: Lane) { if c.RegisteredLanes? then !l.retired else l.live }

  function CountRecvs(recvs: seq<Recv>, c: RecvCounter): nat {
    if |recvs| == 0 then 0
    else CountRecvs(recvs[..|recvs| - 1], c) + (if CountsRecv(c, recvs[|recvs| - 1]) then 1 else 0)
  }

  function CountLanes(lanes: seq<Lane>, c: LaneCounter): nat {
    if |lanes| == 0 then 0
    else CountLanes(lanes[..|lanes| - 1], c) + (if CountsLane(c, lanes[|lanes| - 1]) then 1 else 0)
  }

  lemma {:induction false} RecvCountUpdate(recvs: seq<Recv>, i: nat, me: Recv, c: RecvCounter)
    requires i < |recvs|
    ensures CountRecvs(recvs[i := me], c)
         == CountRecvs(recvs, c) - (if CountsRecv(c, recvs[i]) then 1 else 0) + (if CountsRecv(c, me) then 1 else 0)
  {
    var n := |recvs| - 1;
    if i == n {
      assert recvs[i := me][..n] == recvs[..n];
    } else {
      assert recvs[i := me][..n] == recvs[..n][i := me];
      RecvCountUpdate(recvs[..n], i, me, c);
    }
  }

  lemma {:induction false} RecvCountSame(a: seq<Recv>, b: seq<Recv>, c: RecvCounter)
    requires |a| == |b| && forall i | 0 <= i < |a| :: CountsRecv(c, a[i]) == CountsRecv(c, b[i])
    ensures CountRecvs(a, c) == CountRecvs(b, c)
  {
    if |a| > 0 {
      RecvCountSame(a[..|a| - 1], b[..|b| - 1], c);
    }
  }

  lemma {:induction false} LaneCountUpdate(lanes: seq<Lane>, i: nat, l: Lane, c: LaneCounter)
    requires i < |lanes|
    ensures CountLanes(lanes[i := l], c)
         == CountLanes(lanes, c) - (if CountsLane(c, lanes[i]) then 1 else 0) + (if CountsLane(c, l) then 1 else 0)
  {
    var n := |lanes| - 1;
    if i == n {
      assert lanes[i := l][..n] == lanes[..n];
    } else {
      assert lanes[i := l][..n] == lanes[..n][i := l];
      LaneCountUpdate(lanes[..n], i, l, c);
    }
  }

  /** The count is at least one while some receiver is counted, and exactly one
      only if no other is. */
  lemma {:induction false} RecvCountSeen(recvs: seq<Recv>, i: nat, c: RecvCounter)
    requires i < |recvs| && CountsRecv(c, recvs[i])
    ensures 1 <= CountRecvs(recvs, c)
    ensures CountRecvs(recvs, c) == 1 ==> forall j | 0 <= j < |recvs| && j != i :: !CountsRecv(c, recvs[j])
  {
    var n := |recvs| - 1;
    RecvCountZero(recvs[..n], c);
    if i < n {
      RecvCountSeen(recvs[..n], i, c);
    }
    assert forall j | 0 <= j < n :: recvs[..n][j] == recvs[j];
  }

  lemma {:induction false} RecvCountZero(recvs: seq<Recv>, c: RecvCounter)
    ensures CountRecvs(recvs, c) == 0 <==> forall j | 0 <= j < |recvs| :: !CountsRecv(c, recvs[j])
  {
    if |recvs| > 0 {
      var n := |recvs| - 1;
      RecvCountZero(recvs[..n], c);
      assert forall j | 0 <= j < n :: recvs[..n][j] == recvs[j];
    }
  }

  lemma {:induction false} LaneCountZero(lanes: seq<Lane>, c: LaneCounter)
    ensures CountLanes(lanes, c) == 0 <==> forall j | 0 <= j < |lanes| :: !CountsLane(c, lanes[j])
  {
    if |lanes| > 0 {
      var n := |lanes| - 1;
      LaneCountZero(lanes[..n], c);
      assert forall j | 0 <= j < n :: lanes[..n][j] == lanes[j];
    }
  }

  // -------------------------------------------------------------- where values are

  function Occurs(q: seq<nat>, x: nat): nat { multiset(q)[x] }

  /** Cutting a queue after its first value and again at `n` loses nothing. */
  lemma OccursCut(q: seq<nat>, n: nat, x: nat)
    requires 1 <= n <= |q|
    ensures Occurs(q, x) == multiset{q[0]}[x] + Occurs(q[1..n], x) + Occurs(q[n..], x)
  {
    assert q == [q[0]] + q[1..n] + q[n..];
  }

  /** Copies of `x` a receiver is staging. */
  function InStash(me: Recv, x: nat): nat {
    Occurs(me.private, x) + Occurs(me.local, x) + Occurs(me.hand, x)
  }

  function InRings(lanes: seq<Lane>, x: nat): nat {
    if |lanes| == 0 then 0 else InRings(lanes[..|lanes| - 1], x) + Occurs(lanes[|lanes| - 1].unread, x)
  }

  function InStaging(recvs: seq<Recv>, x: nat): nat {
    if |recvs| == 0 then 0 else InStaging(recvs[..|recvs| - 1], x) + InStash(recvs[|recvs| - 1], x)
  }

  lemma {:induction false} RingsUpdate(lanes: seq<Lane>, i: nat, l: Lane, x: nat)
    requires i < |lanes|
    ensures InRings(lanes[i := l], x) == InRings(lanes, x) - Occurs(lanes[i].unread, x) + Occurs(l.unread, x)
  {
    var n := |lanes| - 1;
    if i == n {
      assert lanes[i := l][..n] == lanes[..n];
    } else {
      assert lanes[i := l][..n] == lanes[..n][i := l];
      RingsUpdate(lanes[..n], i, l, x);
    }
  }

  lemma {:induction false} StagingUpdate(recvs: seq<Recv>, i: nat, me: Recv, x: nat)
    requires i < |recvs|
    ensures InStaging(recvs[i := me], x) == InStaging(recvs, x) - InStash(recvs[i], x) + InStash(me, x)
  {
    var n := |recvs| - 1;
    if i == n {
      assert recvs[i := me][..n] == recvs[..n];
    } else {
      assert recvs[i := me][..n] == recvs[..n][i := me];
      StagingUpdate(recvs[..n], i, me, x);
    }
  }

  // ---------------------------------------------------------------- invariant

  /** A scan based on generation `gen` has not been overlapped by a publication. */
  predicate Undisturbed(s: State, gen: nat) { s.gen == gen && s.open == 0 }

  /** The receiver found its own queues empty and has not filled them since. */
  predicate Hungry(pc: Pc) {
    pc.WorkScan? || pc.ReadyScan? || pc.StealScan? || pc.StealOpen? || pc.Stolen? || pc.Acquire? || pc.AcquireOpen?
    || pc.Holding? || pc.Staging? || pc.StagePrivate? || pc.StageLocal?
    || pc.CheckGen? || pc.CheckFlight? || pc.CheckSenders? || pc.CheckLanes? || pc.CheckFlightAgain?
    || pc.CheckGenAgain? || pc.Drained?
    || ((pc.EndGen? || pc.EndFlight?) && (pc.next.ToSteal? || pc.next.ToAcquire?))
  }

  predicate Carrying(pc: Pc) {
    pc.Stolen? || pc.Staging? || pc.StagePrivate? || pc.StageLocal? || pc.DropTaken?
  }

  /** The receiver's queues have been handed over for good. */
  predicate HandedOver(pc: Pc) {
    pc.DropTaken? || pc.DropMoved? || Delisted(pc) || pc.Unborn?
  }

  predicate Delisted(pc: Pc) {
    pc.DropUnlisted? || pc.Leaving? || pc.Dead? || ((pc.EndGen? || pc.EndFlight?) && pc.next.ToLeave?)
  }

  /** Queue bounds, and the queues each position implies. */
  predicate Shape(s: State) { forall r | 0 <= r < |s.recvs| :: RecvShape(s.recvs[r]) }

  predicate RecvShape(me: Recv) {
    && |me.private| < PREFETCH_LIMIT && |me.local| < PREFETCH_LIMIT && |me.hand| < PREFETCH_LIMIT
    && (me.private == [] || me.local == [])
    && (Hungry(me.pc) || HandedOver(me.pc) ==> me.private == [] && me.local == [])
    && (me.pc.ClonePushed? || me.pc.CloneListed? || me.pc.DropPrivate? ==> me.private == [])
    && (!Carrying(me.pc) ==> me.hand == [])
    && (me.pc.Stolen? ==> |me.hand| < STEAL_BATCH_LIMIT)
    && (me.listed || Delisted(me.pc))
    && (me.alive || me.pc.Dead? || me.pc.Unborn?)
  }

  /** A listed clone is not counted before its parent counts it. */
  predicate Births(s: State) {
    && (forall r | 0 <= r < |s.recvs| && s.recvs[r].pc.CloneListed? ::
          var c := s.recvs[r].pc.child;
          c < |s.recvs| && s.recvs[c].pc.Unborn? && !s.recvs[c].alive)
    && (forall q, r | 0 <= q < r < |s.recvs| && s.recvs[q].pc.CloneListed? && s.recvs[r].pc.CloneListed? ::
          s.recvs[q].pc.child != s.recvs[r].pc.child)
  }

  predicate Holds(pc: Pc) {
    pc.Holding? || pc.Staging? || pc.StagePrivate? || pc.StageLocal? || pc.Staged?
  }

  /** A lane is drained by one receiver at a time, and not after it retired. */
  predicate Tokens(s: State) {
    && (forall r | 0 <= r < |s.recvs| && Holds(s.recvs[r].pc) ::
          var l := s.recvs[r].pc.lane;
          l < |s.lanes| && s.lanes[l].held && !s.lanes[l].retired)
    && (forall q, r | 0 <= q < r < |s.recvs| && Holds(s.recvs[q].pc) && Holds(s.recvs[r].pc) ::
          s.recvs[q].pc.lane != s.recvs[r].pc.lane)
  }

  /** Private staging belongs to a sole receiver. */
  predicate Sole(s: State) {
    forall q, r | 0 <= q < |s.recvs| && 0 <= r < |s.recvs| && q != r && s.recvs[r].alive ::
      s.recvs[q].private == [] && !s.recvs[q].pc.StagePrivate?
  }

  /** A retired lane is drained and its sender is gone. */
  predicate Rings(s: State) {
    forall l | 0 <= l < |s.lanes| ::
      && (s.lanes[l].retired ==> s.lanes[l].dropped && s.lanes[l].unread == [])
      && (!s.lanes[l].live ==> s.lanes[l].dropped)
  }

  predicate RecvCounts(s: State) {
    && s.inFlight == CountRecvs(s.recvs, Publications)
    && s.open == CountRecvs(s.recvs, OpenPublications)
    && s.liveReceivers == CountRecvs(s.recvs, LiveReceivers)
  }

  predicate LaneCounts(s: State) {
    && s.registeredLanes == CountLanes(s.lanes, RegisteredLanes)
    && s.liveSenders == CountLanes(s.lanes, LiveSenders)
  }

  /** No queue outside `todo` holds a stealable value. */
  predicate QueuesEmpty(s: State, todo: set<nat>) {
    forall q | 0 <= q < |s.recvs| && s.recvs[q].local != [] :: q in todo
  }

  /** A scan that has left the queues behind saw them empty, or saw a ready group
      that it has yet to visit. */
  predicate Scanned(s: State, saw: int, left: set<nat>) {
    s.orphan == [] && (if saw < 0 then QueuesEmpty(s, {}) else saw in s.ready && saw in left)
  }

  predicate Checking(pc: Pc) {
    pc.CheckGen? || pc.CheckFlight? || pc.CheckSenders? || pc.CheckLanes? || pc.CheckFlightAgain?
  }

  predicate HasSnapshot(pc: Pc) {
    pc.WorkScan? || pc.ReadyScan? || pc.StealScan? || pc.StealOpen? || pc.Acquire? || pc.AcquireOpen?
    || Checking(pc) || pc.CheckGenAgain?
  }

  predicate Resuming(next: After) { next.ToSteal? || next.ToAcquire? }

  /** What a scanning receiver knows, unless a publication overlapped its scan. */
  predicate ScanFacts(s: State, pc: Pc) {
    && (HasSnapshot(pc) ==> pc.gen <= s.gen)
    && (pc.EndGen? && Resuming(pc.next) ==> pc.next.gen <= s.gen)
    && (pc.EndFlight? && Resuming(pc.next) ==> pc.next.gen < s.gen)
    && (pc.ReadyScan? && Undisturbed(s, pc.gen) ==> s.orphan == [])
    && (pc.StealScan? && Undisturbed(s, pc.gen) ==> s.orphan == [] && QueuesEmpty(s, pc.todo))
    && (pc.Acquire? && Undisturbed(s, pc.gen) ==> Scanned(s, pc.saw, pc.left))
    && (Checking(pc) && Undisturbed(s, pc.gen) ==> Scanned(s, pc.saw, {}))
  }

  /** The step from `s` to `t` did not put values where a scan has already
      looked, unless a publication was open. */
  predicate Calm(s: State, t: State) {
    && s.gen <= t.gen && |s.recvs| <= |t.recvs|
    && (s.gen == t.gen && t.open == 0 ==>
          && s.open == 0
          && (s.orphan == [] ==> t.orphan == [])
          && (forall q | 0 <= q < |t.recvs| && t.recvs[q].local != [] :: q < |s.recvs| && s.recvs[q].local != [])
          && s.ready <= t.ready)
  }

  lemma FactsKept(s: State, t: State, pc: Pc)
    requires Calm(s, t) && ScanFacts(s, pc)
    ensures ScanFacts(t, pc)
  {}

  predicate Scans(s: State) {
    forall r | 0 <= r < |s.recvs| :: ScanFacts(s, s.recvs[r].pc)
  }

  /** No undelivered value exists anywhere, and none can be sent. */
  predicate AllEmpty(s: State) {
    && s.liveSenders == 0 && s.registeredLanes == 0 && s.orphan == []
    && (forall l | 0 <= l < |s.lanes| :: s.lanes[l].retired && s.lanes[l].dropped && s.lanes[l].unread == [])
    && (forall r | 0 <= r < |s.recvs| ::
          s.recvs[r].private == [] && s.recvs[r].local == [] && s.recvs[r].hand == [])
  }

  predicate Verdicts(s: State) {
    forall r | 0 <= r < |s.recvs| ::
      var pc := s.recvs[r].pc;
      && (pc.CheckLanes? || pc.CheckFlightAgain? ==> s.liveSenders == 0)
      && (pc.CheckFlightAgain? ==> s.registeredLanes == 0)
      && (pc.CheckGenAgain? ==> s.gen != pc.gen || AllEmpty(s))
      && (pc.Drained? ==> AllEmpty(s))
  }

  /** Copies of `x` that were accepted and not yet returned by a receive. */
  function Undelivered(s: State, x: nat): nat {
    InRings(s.lanes, x) + InStaging(s.recvs, x) + Occurs(s.orphan, x)
  }

  ghost predicate Conserved(s: State) {
    forall x: nat :: s.sent[x] == s.delivered[x] + Undelivered(s, x)
  }

  ghost predicate Inv(s: State) {
    && |s.recvs| > 0 && |s.lanes| > 0 && Shape(s) && Births(s) && Tokens(s) && Sole(s) && Rings(s) && RecvCounts(s) && LaneCounts(s) && Scans(s) && Verdicts(s) && Conserved(s)
  }

  // ------------------------------------------------------------ step helpers

  function Delta(after: bool, before: bool): int { (if after then 1 else 0) - (if before then 1 else 0) }

  /** A step of receiver `r` moves the counters by that receiver's position. */
  lemma RecvCountsAfter(s: State, t: State, r: nat)
    requires RecvCounts(s) && r < |s.recvs| == |t.recvs|
    requires forall q | 0 <= q < |s.recvs| && q != r ::
      t.recvs[q].pc == s.recvs[q].pc && t.recvs[q].alive == s.recvs[q].alive
    requires t.inFlight - s.inFlight == Delta(InFlight(t.recvs[r].pc), InFlight(s.recvs[r].pc))
    requires t.open - s.open == Delta(Open(t.recvs[r].pc), Open(s.recvs[r].pc))
    requires t.liveReceivers - s.liveReceivers == Delta(t.recvs[r].alive, s.recvs[r].alive)
    ensures RecvCounts(t)
  {
    var mid := s.recvs[r := t.recvs[r]];
    RecvCountUpdate(s.recvs, r, t.recvs[r], Publications);
    RecvCountUpdate(s.recvs, r, t.recvs[r], OpenPublications);
    RecvCountUpdate(s.recvs, r, t.recvs[r], LiveReceivers);
    RecvCountSame(mid, t.recvs, Publications);
    RecvCountSame(mid, t.recvs, OpenPublications);
    RecvCountSame(mid, t.recvs, LiveReceivers);
  }

  lemma LaneCountsAfter(s: State, t: State, l: nat)
    requires LaneCounts(s) && l < |s.lanes| == |t.lanes| && t.lanes == s.lanes[l := t.lanes[l]]
    requires t.registeredLanes - s.registeredLanes == Delta(!t.lanes[l].retired, !s.lanes[l].retired)
    requires t.liveSenders - s.liveSenders == Delta(t.lanes[l].live, s.lanes[l].live)
    ensures LaneCounts(t)
  {
    LaneCountUpdate(s.lanes, l, t.lanes[l], RegisteredLanes);
    LaneCountUpdate(s.lanes, l, t.lanes[l], LiveSenders);
  }

  /** Only receiver `r`, if any, changed its position. */
  predicate Others(s: State, t: State, r: int) {
    && |s.recvs| <= |t.recvs|
    && forall q | 0 <= q < |t.recvs| && q != r ::
         if q < |s.recvs| then t.recvs[q].pc == s.recvs[q].pc else t.recvs[q].pc.Unborn?
  }

  /** The other receivers keep what they know across a calm step. */
  lemma ScansAfter(s: State, t: State, r: int)
    requires Scans(s) && Calm(s, t) && Others(s, t, r)
    requires 0 <= r < |t.recvs| ==> ScanFacts(t, t.recvs[r].pc)
    ensures Scans(t)
  {
    forall q | 0 <= q < |t.recvs| ensures ScanFacts(t, t.recvs[q].pc) {
      if q != r && q < |s.recvs| {
        FactsKept(s, t, s.recvs[q].pc);
      }
    }
  }

  /** Verdicts already reached stay true. */
  lemma VerdictsAfter(s: State, t: State, r: int)
    requires Verdicts(s) && Scans(s) && s.gen <= t.gen && Others(s, t, r)
    requires AllEmpty(s) ==> AllEmpty(t)
    requires s.liveSenders == 0 ==> t.liveSenders == 0
    requires s.liveSenders == 0 && s.registeredLanes == 0 ==> t.registeredLanes == 0
    requires 0 <= r < |t.recvs| ==>
      var pc := t.recvs[r].pc; !pc.CheckLanes? && !pc.CheckFlightAgain? && !pc.CheckGenAgain? && !pc.Drained?
    ensures Verdicts(t)
  {}

  /** A step that changes one receiver and one ring conserves values if it does so locally. */
  lemma ConservedAfter(s: State, t: State, r: nat, l: nat)
    requires Conserved(s) && r < |s.recvs| == |t.recvs| && t.recvs == s.recvs[r := t.recvs[r]]
    requires l < |s.lanes| == |t.lanes| && t.lanes == s.lanes[l := t.lanes[l]]
    requires forall x: nat :: Balanced(s, t, r, l, x)
    ensures Conserved(t)
  {
    forall x: nat ensures t.sent[x] == t.delivered[x] + Undelivered(t, x) {
      StagingUpdate(s.recvs, r, t.recvs[r], x);
      RingsUpdate(s.lanes, l, t.lanes[l], x);
      assert Balanced(s, t, r, l, x);
    }
  }

  predicate Balanced(s: State, t: State, r: nat, l: nat, x: nat)
    requires r < |s.recvs| && r < |t.recvs| && l < |s.lanes| && l < |t.lanes|
  {
    t.sent[x] - t.delivered[x] - Occurs(t.lanes[l].unread, x) - InStash(t.recvs[r], x) - Occurs(t.orphan, x)
    == s.sent[x] - s.delivered[x] - Occurs(s.lanes[l].unread, x) - InStash(s.recvs[r], x) - Occurs(s.orphan, x)
  }
}
