/** What MPMC staging guarantees over every run. */
module MpmcTheorems {
  import opened Basics
  import opened MpmcModel
  import opened MpmcInvariant
  import opened MpmcSteps

  lemma InitCounts()
    ensures RecvCounts(Init()) && LaneCounts(Init())
  {
    var s := Init();
    assert s.recvs[..0] == [] && s.lanes[..0] == [];
    assert forall c :: CountRecvs(s.recvs, c) == CountRecvs([], c) + (if CountsRecv(c, s.recvs[0]) then 1 else 0);
    assert forall c :: CountLanes(s.lanes, c) == CountLanes([], c) + (if CountsLane(c, s.lanes[0]) then 1 else 0);
  }

  lemma InitConserved()
    ensures Conserved(Init())
  {
    var s := Init();
    assert s.recvs[..0] == [] && s.lanes[..0] == [];
    assert forall x: nat :: InRings(s.lanes, x) == InRings([], x) + Occurs([], x);
    assert forall x: nat :: InStaging(s.recvs, x) == InStaging([], x) + InStash(s.recvs[0], x);
  }

  lemma InitRecvs()
    ensures Shape(Init()) && Births(Init()) && Tokens(Init()) && Sole(Init()) && Rings(Init())
  {
  }

  lemma InitScans()
    ensures Scans(Init()) && Verdicts(Init())
  {
  }

  lemma InitInv()
    ensures Inv(Init())
  {
    hide Shape, Births, Tokens, Sole, Rings, Scans, Verdicts, RecvCounts, LaneCounts, Conserved;
    InitRecvs();
    InitScans();
    InitCounts();
    InitConserved();
  }

  lemma StepKeepsInv(s: State, a: Step)
    requires Enabled(s, a) && Inv(s)
    ensures Inv(Apply(s, a))
  {
    hide Inv;
    match a
    case BySender(l, op) => SenderKeepsInv(s, l, op);
    case ByPop(r, op) => PopKeepsInv(s, r, op);
    case ByScan(r, op) => ScanKeepsInv(s, r, op);
    case ByCheck(r, op) => CheckKeepsInv(s, r, op);
    case BySteal(r, op) => StealKeepsInv(s, r, op);
    case ByHold(r, op) => HoldKeepsInv(s, r, op);
    case ByEnd(r, op) => EndKeepsInv(s, r, op);
    case ByClone(r, op) => CloneKeepsInv(s, r, op);
    case ByDrop(r, op) => DropKeepsInv(s, r, op);
  }

  lemma {:induction false} RunInv(run: seq<State>, k: nat)
    requires IsRun(run) && k < |run|
    ensures Inv(run[k])
  {
    if k == 0 {
      InitInv();
    } else {
      RunInv(run, k - 1);
      assert Next(run[k - 1], run[k - 1 + 1]);
      var a: Step :| Enabled(run[k - 1], a) && run[k] == Apply(run[k - 1], a);
      StepKeepsInv(run[k - 1], a);
    }
  }

  /** Disconnected is sound: when a receiver's empty scan answers Drained, no
      accepted value is left in any ring, private, stealable or orphaned queue,
      nor in the hands of a receiver that is moving values. */
  lemma DrainedIsSound(run: seq<State>, k: nat, r: nat)
    requires IsRun(run) && k < |run| && r < |run[k].recvs| && run[k].recvs[r].pc.Drained?
    ensures AllEmpty(run[k])
    ensures forall x: nat :: Undelivered(run[k], x) == 0
    ensures run[k].sent == run[k].delivered
  {
    RunInv(run, k);
    forall x: nat ensures Undelivered(run[k], x) == 0 && run[k].sent[x] == run[k].delivered[x] {
      EmptyRings(run[k].lanes, x);
      EmptyStaging(run[k].recvs, x);
    }
  }

  lemma {:induction false} EmptyRings(lanes: seq<Lane>, x: nat)
    requires forall l | 0 <= l < |lanes| :: lanes[l].unread == []
    ensures InRings(lanes, x) == 0
  {
    if |lanes| > 0 {
      EmptyRings(lanes[..|lanes| - 1], x);
    }
  }

  lemma {:induction false} EmptyStaging(recvs: seq<Recv>, x: nat)
    requires forall r | 0 <= r < |recvs| :: recvs[r].private == [] && recvs[r].local == [] && recvs[r].hand == []
    ensures InStaging(recvs, x) == 0
  {
    if |recvs| > 0 {
      EmptyStaging(recvs[..|recvs| - 1], x);
    }
  }

  lemma EmptyIsStable(s: State, a: Step)
    requires AllEmpty(s) && Enabled(s, a)
    ensures AllEmpty(Apply(s, a))
  {
    match a
    case BySender(l, op) => SenderKeepsEmpty(s, l, op);
    case ByPop(r, op) => PopKeepsEmpty(s, r, op);
    case ByScan(r, op) => ScanKeepsEmpty(s, r, op);
    case ByCheck(r, op) => CheckKeepsEmpty(s, r, op);
    case BySteal(r, op) => StealKeepsEmpty(s, r, op);
    case ByHold(r, op) => HoldKeepsEmpty(s, r, op);
    case ByEnd(r, op) => EndKeepsEmpty(s, r, op);
    case ByClone(r, op) => CloneKeepsEmpty(s, r, op);
    case ByDrop(r, op) => DropKeepsEmpty(s, r, op);
  }

  /** And final: after one receiver has answered Drained, no value exists in any
      later state of the run. */
  lemma {:induction false} DrainedIsFinal(run: seq<State>, k: nat, m: nat, r: nat)
    requires IsRun(run) && k <= m < |run| && r < |run[k].recvs| && run[k].recvs[r].pc.Drained?
    ensures AllEmpty(run[m])
  {
    if k == m {
      DrainedIsSound(run, k, r);
    } else {
      DrainedIsFinal(run, k, m - 1, r);
      assert Next(run[m - 1], run[m - 1 + 1]);
      var a: Step :| Enabled(run[m - 1], a) && run[m] == Apply(run[m - 1], a);
      EmptyIsStable(run[m - 1], a);
    }
  }

  /** Clones, drops, staging and steals lose and duplicate nothing. */
  lemma ValuesAreConserved(run: seq<State>, k: nat, x: nat)
    requires IsRun(run) && k < |run|
    ensures run[k].sent[x] == run[k].delivered[x] + Undelivered(run[k], x)
  {
    RunInv(run, k);
  }

  /** A bounded work queue never overflows: every push starts from an empty queue
      (or pushes nothing) and fits, and a steal carries at most seven values. */
  lemma PushesFit(run: seq<State>, k: nat, r: nat)
    requires IsRun(run) && k < |run| && r < |run[k].recvs|
    ensures var me := run[k].recvs[r];
            && (me.pc.Stolen? ==> me.local == [] && |me.hand| <= STEAL_BATCH_LIMIT - 1)
            && (me.pc.StageLocal? ==> me.local == [] && |me.hand| < PREFETCH_LIMIT)
            && (me.pc.CloneOpen? ==> (me.private == [] || me.local == []) && |me.local + me.private| < PREFETCH_LIMIT)
            && (me.private != [] ==> me.local == [])
  {
    RunInv(run, k);
  }

  /** Values staged outside the stealable queues belong to a sole receiver. */
  lemma PrivateMeansSole(run: seq<State>, k: nat, q: nat, r: nat)
    requires IsRun(run) && k < |run| && q < |run[k].recvs| && r < |run[k].recvs| && q != r
    requires run[k].recvs[q].private != []
    ensures !run[k].recvs[r].alive
  {
    RunInv(run, k);
  }
}
