/** Every step keeps the invariant of MPMC staging. */
module MpmcSteps {
  import opened Basics
  import opened MpmcModel
  import opened MpmcInvariant

  lemma SenderKeepsTokens(s: State, l: nat, op: SenderOp)
    requires EnabledSender(s, l, op)
    requires Tokens(s)
    ensures Tokens(ApplySender(s, l, op))
  {}

  lemma SenderKeepsRings(s: State, l: nat, op: SenderOp)
    requires EnabledSender(s, l, op)
    requires Rings(s)
    ensures Rings(ApplySender(s, l, op))
  {}

  lemma SenderIsCalm(s: State, l: nat, op: SenderOp)
    requires EnabledSender(s, l, op)
    ensures Calm(s, ApplySender(s, l, op))
  {}

  lemma PopKeepsShape(s: State, r: nat, op: PopOp)
    requires r < |s.recvs| && EnabledPop(s, r, op)
    requires Shape(s)
    ensures Shape(ApplyPop(s, r, op))
  {}

  lemma PopKeepsBirths(s: State, r: nat, op: PopOp)
    requires r < |s.recvs| && EnabledPop(s, r, op)
    requires Shape(s) && Births(s)
    ensures Births(ApplyPop(s, r, op))
  {}

  lemma PopKeepsTokens(s: State, r: nat, op: PopOp)
    requires r < |s.recvs| && EnabledPop(s, r, op)
    requires Tokens(s)
    ensures Tokens(ApplyPop(s, r, op))
  {}

  lemma PopKeepsSole(s: State, r: nat, op: PopOp)
    requires r < |s.recvs| && EnabledPop(s, r, op)
    requires Shape(s) && Sole(s)
    ensures Sole(ApplyPop(s, r, op))
  {}

  lemma PopIsCalm(s: State, r: nat, op: PopOp)
    requires r < |s.recvs| && EnabledPop(s, r, op)
    ensures Calm(s, ApplyPop(s, r, op))
  {}

  lemma PopKeepsFacts(s: State, r: nat, op: PopOp)
    requires r < |s.recvs| && EnabledPop(s, r, op)
    requires Shape(s) && Scans(s)
    ensures ScanFacts(ApplyPop(s, r, op), ApplyPop(s, r, op).recvs[r].pc)
  {}

  lemma ScanKeepsShape(s: State, r: nat, op: ScanOp)
    requires r < |s.recvs| && EnabledScan(s, r, op)
    requires Shape(s)
    ensures Shape(ApplyScan(s, r, op))
  {}

  lemma ScanKeepsBirths(s: State, r: nat, op: ScanOp)
    requires r < |s.recvs| && EnabledScan(s, r, op)
    requires Shape(s) && Births(s)
    ensures Births(ApplyScan(s, r, op))
  {}

  lemma ScanKeepsTokens(s: State, r: nat, op: ScanOp)
    requires r < |s.recvs| && EnabledScan(s, r, op)
    requires Tokens(s)
    ensures Tokens(ApplyScan(s, r, op))
  {}

  lemma ScanKeepsSole(s: State, r: nat, op: ScanOp)
    requires r < |s.recvs| && EnabledScan(s, r, op)
    requires Shape(s) && Sole(s)
    ensures Sole(ApplyScan(s, r, op))
  {}

  lemma ScanIsCalm(s: State, r: nat, op: ScanOp)
    requires r < |s.recvs| && EnabledScan(s, r, op)
    ensures Calm(s, ApplyScan(s, r, op))
  {}

  lemma ScanKeepsFacts(s: State, r: nat, op: ScanOp)
    requires r < |s.recvs| && EnabledScan(s, r, op)
    requires Shape(s) && Scans(s)
    ensures ScanFacts(ApplyScan(s, r, op), ApplyScan(s, r, op).recvs[r].pc)
  {}

  lemma CheckKeepsShape(s: State, r: nat, op: CheckOp)
    requires r < |s.recvs| && EnabledCheck(s, r, op)
    requires Shape(s)
    ensures Shape(ApplyCheck(s, r, op))
  {}

  lemma CheckKeepsBirths(s: State, r: nat, op: CheckOp)
    requires r < |s.recvs| && EnabledCheck(s, r, op)
    requires Shape(s) && Births(s)
    ensures Births(ApplyCheck(s, r, op))
  {}

  lemma CheckKeepsTokens(s: State, r: nat, op: CheckOp)
    requires r < |s.recvs| && EnabledCheck(s, r, op)
    requires Tokens(s)
    ensures Tokens(ApplyCheck(s, r, op))
  {}

  lemma CheckKeepsSole(s: State, r: nat, op: CheckOp)
    requires r < |s.recvs| && EnabledCheck(s, r, op)
    requires Shape(s) && Sole(s)
    ensures Sole(ApplyCheck(s, r, op))
  {}

  lemma CheckIsCalm(s: State, r: nat, op: CheckOp)
    requires r < |s.recvs| && EnabledCheck(s, r, op)
    ensures Calm(s, ApplyCheck(s, r, op))
  {}

  lemma CheckKeepsFacts(s: State, r: nat, op: CheckOp)
    requires r < |s.recvs| && EnabledCheck(s, r, op)
    requires Shape(s) && Scans(s)
    ensures ScanFacts(ApplyCheck(s, r, op), ApplyCheck(s, r, op).recvs[r].pc)
  {}

  lemma StealKeepsShape(s: State, r: nat, op: StealOp)
    requires r < |s.recvs| && EnabledSteal(s, r, op)
    requires Shape(s)
    ensures Shape(ApplySteal(s, r, op))
  {}

  lemma StealKeepsBirths(s: State, r: nat, op: StealOp)
    requires r < |s.recvs| && EnabledSteal(s, r, op)
    requires Shape(s) && Births(s)
    ensures Births(ApplySteal(s, r, op))
  {}

  lemma StealKeepsTokens(s: State, r: nat, op: StealOp)
    requires r < |s.recvs| && EnabledSteal(s, r, op)
    requires Tokens(s)
    ensures Tokens(ApplySteal(s, r, op))
  {}

  lemma StealKeepsSole(s: State, r: nat, op: StealOp)
    requires r < |s.recvs| && EnabledSteal(s, r, op)
    requires Shape(s) && Sole(s)
    ensures Sole(ApplySteal(s, r, op))
  {}

  lemma StealIsCalm(s: State, r: nat, op: StealOp)
    requires r < |s.recvs| && EnabledSteal(s, r, op)
    requires RecvCounts(s)
    ensures Calm(s, ApplySteal(s, r, op))
  {
    if Open(s.recvs[r].pc) {
      RecvCountSeen(s.recvs, r, OpenPublications);
    }
  }

  lemma StealKeepsFacts(s: State, r: nat, op: StealOp)
    requires r < |s.recvs| && EnabledSteal(s, r, op)
    requires Scans(s)
    ensures ScanFacts(ApplySteal(s, r, op), ApplySteal(s, r, op).recvs[r].pc)
  {
    hide QueuesEmpty, Scanned, Undisturbed, Transfer;
  }

  lemma HoldKeepsShape(s: State, r: nat, op: HoldOp)
    requires r < |s.recvs| && EnabledHold(s, r, op)
    requires Shape(s)
    ensures Shape(ApplyHold(s, r, op))
  {}

  lemma HoldKeepsBirths(s: State, r: nat, op: HoldOp)
    requires r < |s.recvs| && EnabledHold(s, r, op)
    requires Shape(s) && Births(s)
    ensures Births(ApplyHold(s, r, op))
  {}

  lemma HoldKeepsTokens(s: State, r: nat, op: HoldOp)
    requires r < |s.recvs| && EnabledHold(s, r, op)
    requires Tokens(s)
    ensures Tokens(ApplyHold(s, r, op))
  {}

  lemma HoldKeepsSole(s: State, r: nat, op: HoldOp)
    requires r < |s.recvs| && EnabledHold(s, r, op)
    requires Shape(s) && Sole(s) && RecvCounts(s)
    ensures Sole(ApplyHold(s, r, op))
  {
    if op.ReadLive? {
      RecvCountSeen(s.recvs, r, LiveReceivers);
    }
  }

  lemma HoldKeepsRings(s: State, r: nat, op: HoldOp)
    requires r < |s.recvs| && EnabledHold(s, r, op)
    requires Rings(s)
    ensures Rings(ApplyHold(s, r, op))
  {}

  lemma HoldIsCalm(s: State, r: nat, op: HoldOp)
    requires r < |s.recvs| && EnabledHold(s, r, op)
    requires RecvCounts(s)
    ensures Calm(s, ApplyHold(s, r, op))
  {
    if Open(s.recvs[r].pc) {
      RecvCountSeen(s.recvs, r, OpenPublications);
    }
  }

  lemma HoldKeepsFacts(s: State, r: nat, op: HoldOp)
    requires r < |s.recvs| && EnabledHold(s, r, op)
    requires Scans(s)
    ensures ScanFacts(ApplyHold(s, r, op), ApplyHold(s, r, op).recvs[r].pc)
  {
    hide Scanned, QueuesEmpty, Undisturbed;
    assert ScanFacts(s, s.recvs[r].pc);
  }

  lemma EndKeepsShape(s: State, r: nat, op: EndOp)
    requires r < |s.recvs| && EnabledEnd(s, r, op)
    requires Shape(s)
    ensures Shape(ApplyEnd(s, r, op))
  {}

  lemma EndKeepsBirths(s: State, r: nat, op: EndOp)
    requires r < |s.recvs| && EnabledEnd(s, r, op)
    requires Shape(s) && Births(s)
    ensures Births(ApplyEnd(s, r, op))
  {}

  lemma EndKeepsTokens(s: State, r: nat, op: EndOp)
    requires r < |s.recvs| && EnabledEnd(s, r, op)
    requires Tokens(s)
    ensures Tokens(ApplyEnd(s, r, op))
  {}

  lemma EndKeepsSole(s: State, r: nat, op: EndOp)
    requires r < |s.recvs| && EnabledEnd(s, r, op)
    requires Shape(s) && Sole(s)
    ensures Sole(ApplyEnd(s, r, op))
  {}

  lemma EndIsCalm(s: State, r: nat, op: EndOp)
    requires r < |s.recvs| && EnabledEnd(s, r, op)
    requires RecvCounts(s)
    ensures Calm(s, ApplyEnd(s, r, op))
  {
    if Open(s.recvs[r].pc) {
      RecvCountSeen(s.recvs, r, OpenPublications);
    }
  }

  lemma EndKeepsFacts(s: State, r: nat, op: EndOp)
    requires r < |s.recvs| && EnabledEnd(s, r, op)
    requires Shape(s) && Scans(s) && RecvCounts(s)
    ensures ScanFacts(ApplyEnd(s, r, op), ApplyEnd(s, r, op).recvs[r].pc)
  {
    if Open(s.recvs[r].pc) {
      RecvCountSeen(s.recvs, r, OpenPublications);
    }
  }

  lemma CloneListKeepsShape(s: State, r: nat)
    requires r < |s.recvs| && EnabledClone(s, r, CloneList) && Shape(s)
    ensures Shape(ApplyClone(s, r, CloneList))
  {}

  lemma CloneCountKeepsShape(s: State, r: nat)
    requires r < |s.recvs| && EnabledClone(s, r, CloneCount) && Shape(s)
    ensures Shape(ApplyClone(s, r, CloneCount))
  {}

  lemma CloneMoveKeepsShape(s: State, r: nat, op: CloneOp)
    requires r < |s.recvs| && EnabledClone(s, r, op) && !op.CloneList? && !op.CloneCount?
    requires Shape(s)
    ensures Shape(ApplyClone(s, r, op))
  {}

  lemma CloneKeepsShape(s: State, r: nat, op: CloneOp)
    requires r < |s.recvs| && EnabledClone(s, r, op)
    requires Shape(s)
    ensures Shape(ApplyClone(s, r, op))
  {
    hide Shape, ApplyClone;
    if op.CloneList? {
      CloneListKeepsShape(s, r);
    } else if op.CloneCount? {
      CloneCountKeepsShape(s, r);
    } else {
      CloneMoveKeepsShape(s, r, op);
    }
  }

  lemma CloneKeepsBirthsList(s: State, r: nat, op: CloneOp)
    requires r < |s.recvs| && EnabledClone(s, r, op)
    requires Shape(s) && Births(s)
    requires op.CloneList?
    ensures Births(ApplyClone(s, r, op))
  {}

  lemma CloneKeepsBirthsOther(s: State, r: nat, op: CloneOp)
    requires r < |s.recvs| && EnabledClone(s, r, op)
    requires Shape(s) && Births(s)
    requires !(op.CloneList?)
    ensures Births(ApplyClone(s, r, op))
  {}

  lemma CloneKeepsBirths(s: State, r: nat, op: CloneOp)
    requires r < |s.recvs| && EnabledClone(s, r, op)
    requires Shape(s) && Births(s)
    ensures Births(ApplyClone(s, r, op))
  {
    hide Shape, Births, ApplyClone;
    if op.CloneList? {
      CloneKeepsBirthsList(s, r, op);
    } else {
      CloneKeepsBirthsOther(s, r, op);
    }
  }

  lemma CloneKeepsTokensList(s: State, r: nat, op: CloneOp)
    requires r < |s.recvs| && EnabledClone(s, r, op)
    requires Tokens(s)
    requires op.CloneList?
    ensures Tokens(ApplyClone(s, r, op))
  {}

  lemma CloneKeepsTokensOther(s: State, r: nat, op: CloneOp)
    requires r < |s.recvs| && EnabledClone(s, r, op)
    requires Tokens(s)
    requires !(op.CloneList?)
    ensures Tokens(ApplyClone(s, r, op))
  {}

  lemma CloneKeepsTokens(s: State, r: nat, op: CloneOp)
    requires r < |s.recvs| && EnabledClone(s, r, op)
    requires Tokens(s)
    ensures Tokens(ApplyClone(s, r, op))
  {
    hide Tokens, ApplyClone;
    if op.CloneList? {
      CloneKeepsTokensList(s, r, op);
    } else {
      CloneKeepsTokensOther(s, r, op);
    }
  }

  lemma CloneKeepsSole(s: State, r: nat, op: CloneOp)
    requires r < |s.recvs| && EnabledClone(s, r, op)
    requires Shape(s) && Births(s) && Sole(s)
    ensures Sole(ApplyClone(s, r, op))
  {}

  lemma CloneIsCalm(s: State, r: nat, op: CloneOp)
    requires r < |s.recvs| && EnabledClone(s, r, op)
    requires RecvCounts(s)
    ensures Calm(s, ApplyClone(s, r, op))
  {
    if Open(s.recvs[r].pc) {
      RecvCountSeen(s.recvs, r, OpenPublications);
    }
  }

  lemma CloneKeepsFacts(s: State, r: nat, op: CloneOp)
    requires r < |s.recvs| && EnabledClone(s, r, op)
    ensures ScanFacts(ApplyClone(s, r, op), ApplyClone(s, r, op).recvs[r].pc)
  {}

  lemma DropKeepsShape(s: State, r: nat, op: DropOp)
    requires r < |s.recvs| && EnabledDrop(s, r, op)
    requires Shape(s) && Births(s)
    ensures Shape(ApplyDrop(s, r, op))
  {}

  lemma DropKeepsBirths(s: State, r: nat, op: DropOp)
    requires r < |s.recvs| && EnabledDrop(s, r, op)
    requires Shape(s) && Births(s)
    ensures Births(ApplyDrop(s, r, op))
  {}

  lemma DropKeepsTokens(s: State, r: nat, op: DropOp)
    requires r < |s.recvs| && EnabledDrop(s, r, op)
    requires Tokens(s)
    ensures Tokens(ApplyDrop(s, r, op))
  {}

  lemma DropKeepsSole(s: State, r: nat, op: DropOp)
    requires r < |s.recvs| && EnabledDrop(s, r, op)
    requires Shape(s) && Births(s) && Sole(s)
    ensures Sole(ApplyDrop(s, r, op))
  {}

  lemma DropIsCalm(s: State, r: nat, op: DropOp)
    requires r < |s.recvs| && EnabledDrop(s, r, op)
    requires RecvCounts(s)
    ensures Calm(s, ApplyDrop(s, r, op))
  {
    if Open(s.recvs[r].pc) {
      RecvCountSeen(s.recvs, r, OpenPublications);
    }
  }

  lemma DropKeepsFacts(s: State, r: nat, op: DropOp)
    requires r < |s.recvs| && EnabledDrop(s, r, op)
    ensures ScanFacts(ApplyDrop(s, r, op), ApplyDrop(s, r, op).recvs[r].pc)
  {}

  // ---- Sender: counters, verdicts, values

  lemma SenderKeepsCounts(s: State, l: nat, op: SenderOp)
    requires EnabledSender(s, l, op)
    requires RecvCounts(s) && LaneCounts(s)
    ensures var t := ApplySender(s, l, op); RecvCounts(t) && LaneCounts(t)
  {
    var t := ApplySender(s, l, op);
    if op.Register? {
      assert t.lanes[..|s.lanes|] == s.lanes;
    } else if l < |s.lanes| && !op.MarkReady? && !op.AddGroup? {
      LaneCountsAfter(s, t, l);
    }
  }

  lemma SenderKeepsEmpty(s: State, l: nat, op: SenderOp)
    requires EnabledSender(s, l, op)
    requires AllEmpty(s)
    ensures AllEmpty(ApplySender(s, l, op))
  {}

  lemma SenderConserves(s: State, l: nat, op: SenderOp)
    requires EnabledSender(s, l, op)
    requires |s.recvs| > 0 && |s.lanes| > 0 && Conserved(s)
    ensures Conserved(ApplySender(s, l, op))
  {
    if op.Register? {
      RegisterConserves(s, l);
    } else if op.Send? {
      SendConserves(s, l, op);
    } else {
      OtherSenderConserves(s, l, op);
    }
  }

  lemma RegisterConserves(s: State, l: nat)
    requires EnabledSender(s, l, Register) && Conserved(s)
    ensures Conserved(ApplySender(s, l, Register))
  {
    var t := ApplySender(s, l, Register);
    assert t.lanes[..|s.lanes|] == s.lanes;
  }

  lemma SendConserves(s: State, l: nat, op: SenderOp)
    requires EnabledSender(s, l, op) && op.Send? && |s.recvs| > 0 && Conserved(s)
    ensures Conserved(ApplySender(s, l, op))
  {
    hide Conserved;
    ConservedAfter(s, ApplySender(s, l, op), 0, l);
  }

  lemma OtherSenderConserves(s: State, l: nat, op: SenderOp)
    requires EnabledSender(s, l, op) && !op.Send? && !op.Register?
    requires |s.recvs| > 0 && |s.lanes| > 0 && Conserved(s)
    ensures Conserved(ApplySender(s, l, op))
  {
    hide Conserved;
    ConservedAfter(s, ApplySender(s, l, op), 0, if l < |s.lanes| then l else 0);
  }

  lemma SenderKeepsVerdicts(s: State, l: nat, op: SenderOp)
    requires EnabledSender(s, l, op)
    requires Verdicts(s) && Scans(s) && LaneCounts(s)
    ensures Verdicts(ApplySender(s, l, op))
  {
    if AllEmpty(s) {
      SenderKeepsEmpty(s, l, op);
    }
    LaneCountZero(s.lanes, LiveSenders);
    VerdictsAfter(s, ApplySender(s, l, op), -1);
  }

  // ---- Pop: counters, verdicts, values

  lemma PopKeepsCounts(s: State, r: nat, op: PopOp)
    requires r < |s.recvs| && EnabledPop(s, r, op)
    requires RecvCounts(s) && LaneCounts(s)
    ensures var t := ApplyPop(s, r, op); RecvCounts(t) && LaneCounts(t)
  {
    var t := ApplyPop(s, r, op);
    RecvCountsAfter(s, t, r);
  }

  lemma PopKeepsEmpty(s: State, r: nat, op: PopOp)
    requires r < |s.recvs| && EnabledPop(s, r, op)
    requires AllEmpty(s)
    ensures AllEmpty(ApplyPop(s, r, op))
  {}

  lemma PopPrivateConserves(s: State, r: nat)
    requires r < |s.recvs| && |s.lanes| > 0 && EnabledPop(s, r, PopPrivate) && Conserved(s)
    ensures Conserved(ApplyPop(s, r, PopPrivate))
  {
    var t := ApplyPop(s, r, PopPrivate);
    forall x: nat ensures Balanced(s, t, r, 0, x) {
      OccursCut(s.recvs[r].private, 1, x);
    }
    ConservedAfter(s, t, r, 0);
  }

  lemma PopLocalConserves(s: State, r: nat)
    requires r < |s.recvs| && |s.lanes| > 0 && EnabledPop(s, r, PopLocal) && Conserved(s)
    ensures Conserved(ApplyPop(s, r, PopLocal))
  {
    var t := ApplyPop(s, r, PopLocal);
    forall x: nat ensures Balanced(s, t, r, 0, x) {
      OccursCut(s.recvs[r].local, 1, x);
    }
    ConservedAfter(s, t, r, 0);
  }

  lemma PopOrphanConserves(s: State, r: nat)
    requires r < |s.recvs| && |s.lanes| > 0 && EnabledPop(s, r, PopOrphan) && Conserved(s)
    ensures Conserved(ApplyPop(s, r, PopOrphan))
  {
    var t := ApplyPop(s, r, PopOrphan);
    forall x: nat ensures Balanced(s, t, r, 0, x) {
      OccursCut(s.orphan, 1, x);
    }
    ConservedAfter(s, t, r, 0);
  }

  lemma PopConserves(s: State, r: nat, op: PopOp)
    requires r < |s.recvs| && EnabledPop(s, r, op)
    requires |s.recvs| > 0 && |s.lanes| > 0 && Conserved(s) && Shape(s)
    ensures Conserved(ApplyPop(s, r, op))
  {
    var t := ApplyPop(s, r, op);
    match op
    case PopPrivate => PopPrivateConserves(s, r);
    case PopLocal => PopLocalConserves(s, r);
    case PopOrphan => PopOrphanConserves(s, r);
    case _ => ConservedAfter(s, t, r, 0);
  }

  lemma PopKeepsVerdicts(s: State, r: nat, op: PopOp)
    requires r < |s.recvs| && EnabledPop(s, r, op)
    requires Verdicts(s) && Scans(s)
    ensures Verdicts(ApplyPop(s, r, op))
  {
    if AllEmpty(s) {
      PopKeepsEmpty(s, r, op);
    }
    VerdictsAfter(s, ApplyPop(s, r, op), r);
  }

  // ---- Scan: counters, verdicts, values

  lemma ScanKeepsCounts(s: State, r: nat, op: ScanOp)
    requires r < |s.recvs| && EnabledScan(s, r, op)
    requires RecvCounts(s) && LaneCounts(s)
    ensures var t := ApplyScan(s, r, op); RecvCounts(t) && LaneCounts(t)
  {
    var t := ApplyScan(s, r, op);
    RecvCountsAfter(s, t, r);
  }

  lemma ScanKeepsEmpty(s: State, r: nat, op: ScanOp)
    requires r < |s.recvs| && EnabledScan(s, r, op)
    requires AllEmpty(s)
    ensures AllEmpty(ApplyScan(s, r, op))
  {}

  lemma ScanConserves(s: State, r: nat, op: ScanOp)
    requires r < |s.recvs| && EnabledScan(s, r, op)
    requires |s.recvs| > 0 && |s.lanes| > 0 && Conserved(s)
    ensures Conserved(ApplyScan(s, r, op))
  {
    var t := ApplyScan(s, r, op);
    ConservedAfter(s, t, r, 0);
  }

  lemma ScanKeepsVerdicts(s: State, r: nat, op: ScanOp)
    requires r < |s.recvs| && EnabledScan(s, r, op)
    requires Verdicts(s) && Scans(s)
    ensures Verdicts(ApplyScan(s, r, op))
  {
    if AllEmpty(s) {
      ScanKeepsEmpty(s, r, op);
    }
    VerdictsAfter(s, ApplyScan(s, r, op), r);
  }

  // ---- Check: counters, verdicts, values

  lemma CheckKeepsCounts(s: State, r: nat, op: CheckOp)
    requires r < |s.recvs| && EnabledCheck(s, r, op)
    requires RecvCounts(s) && LaneCounts(s)
    ensures var t := ApplyCheck(s, r, op); RecvCounts(t) && LaneCounts(t)
  {
    var t := ApplyCheck(s, r, op);
    RecvCountsAfter(s, t, r);
  }

  lemma CheckKeepsEmpty(s: State, r: nat, op: CheckOp)
    requires r < |s.recvs| && EnabledCheck(s, r, op)
    requires AllEmpty(s)
    ensures AllEmpty(ApplyCheck(s, r, op))
  {}

  lemma CheckConserves(s: State, r: nat, op: CheckOp)
    requires r < |s.recvs| && EnabledCheck(s, r, op)
    requires |s.recvs| > 0 && |s.lanes| > 0 && Conserved(s)
    ensures Conserved(ApplyCheck(s, r, op))
  {
    var t := ApplyCheck(s, r, op);
    ConservedAfter(s, t, r, 0);
  }

  // ---- Steal: counters, verdicts, values

  lemma StealKeepsCounts(s: State, r: nat, op: StealOp)
    requires r < |s.recvs| && EnabledSteal(s, r, op)
    requires Shape(s) && RecvCounts(s) && LaneCounts(s)
    ensures var t := ApplySteal(s, r, op); RecvCounts(t) && LaneCounts(t)
  {
    var t := ApplySteal(s, r, op);
    RecvCountsAfter(s, t, r);
  }

  lemma StealKeepsEmpty(s: State, r: nat, op: StealOp)
    requires r < |s.recvs| && EnabledSteal(s, r, op)
    requires AllEmpty(s)
    ensures AllEmpty(ApplySteal(s, r, op))
  {}

  lemma StealTakeStaging(s: State, r: nat, x: nat)
    requires r < |s.recvs| && EnabledSteal(s, r, StealTake) && Shape(s)
    ensures var t := ApplySteal(s, r, StealTake);
      InStaging(t.recvs, x) + t.delivered[x] == InStaging(s.recvs, x) + s.delivered[x]
  {
    hide InStaging;
    var t := ApplySteal(s, r, StealTake);
    var v := s.recvs[r].pc.victim;
    var q := s.recvs[v].local;
    StagingUpdate(s.recvs, v, t.recvs[v], x);
    StagingUpdate(s.recvs[v := t.recvs[v]], r, t.recvs[r], x);
    OccursCut(q, 1 + Transfer(|q| - 1), x);
  }

  lemma StealTakeConserves(s: State, r: nat)
    requires r < |s.recvs| && EnabledSteal(s, r, StealTake) && Conserved(s) && Shape(s)
    ensures Conserved(ApplySteal(s, r, StealTake))
  {
    hide InStaging, InRings, Occurs, Shape;
    var t := ApplySteal(s, r, StealTake);
    forall x: nat ensures t.sent[x] == t.delivered[x] + Undelivered(t, x) {
      StealTakeStaging(s, r, x);
    }
  }

  lemma StealConserves(s: State, r: nat, op: StealOp)
    requires r < |s.recvs| && EnabledSteal(s, r, op)
    requires |s.recvs| > 0 && |s.lanes| > 0 && Conserved(s) && Shape(s)
    ensures Conserved(ApplySteal(s, r, op))
  {
    var t := ApplySteal(s, r, op);
    if op.StealTake? {
      StealTakeConserves(s, r);
    } else {
      ConservedAfter(s, t, r, 0);
    }
  }

  lemma StealKeepsVerdicts(s: State, r: nat, op: StealOp)
    requires r < |s.recvs| && EnabledSteal(s, r, op)
    requires Verdicts(s) && Scans(s)
    ensures Verdicts(ApplySteal(s, r, op))
  {
    if AllEmpty(s) {
      StealKeepsEmpty(s, r, op);
    }
    VerdictsAfter(s, ApplySteal(s, r, op), r);
  }

  // ---- Hold: counters, verdicts, values

  lemma HoldKeepsCounts(s: State, r: nat, op: HoldOp)
    requires r < |s.recvs| && EnabledHold(s, r, op)
    requires RecvCounts(s) && LaneCounts(s) && Tokens(s)
    ensures var t := ApplyHold(s, r, op); RecvCounts(t) && LaneCounts(t)
  {
    var t := ApplyHold(s, r, op);
    RecvCountsAfter(s, t, r);
    if !op.TakeBit? && !op.GetNone? && !op.ReadLive? && !op.PushPrivate? && !op.PushLocal? {
      LaneCountsAfter(s, t, if op.GetLane? then op.l else s.recvs[r].pc.lane);
    }
  }

  lemma HoldKeepsEmpty(s: State, r: nat, op: HoldOp)
    requires r < |s.recvs| && EnabledHold(s, r, op)
    requires AllEmpty(s)
    ensures AllEmpty(ApplyHold(s, r, op))
  {}

  lemma TakeBatchConserves(s: State, r: nat, n: nat)
    requires r < |s.recvs| && EnabledHold(s, r, TakeBatch(n)) && Conserved(s) && Shape(s)
    ensures Conserved(ApplyHold(s, r, TakeBatch(n)))
  {
    var t := ApplyHold(s, r, TakeBatch(n));
    var l := s.recvs[r].pc.lane;
    forall x: nat ensures Balanced(s, t, r, l, x) {
      OccursCut(s.lanes[l].unread, n, x);
    }
    ConservedAfter(s, t, r, l);
  }

  lemma HoldConserves(s: State, r: nat, op: HoldOp)
    requires r < |s.recvs| && EnabledHold(s, r, op)
    requires |s.recvs| > 0 && |s.lanes| > 0 && Conserved(s) && Shape(s)
    ensures Conserved(ApplyHold(s, r, op))
  {
    var t := ApplyHold(s, r, op);
    if op.TakeBatch? {
      TakeBatchConserves(s, r, op.n);
    } else {
      ConservedAfter(s, t, r, if op.GetLane? then op.l else if op.Requeue? || op.Retire? then s.recvs[r].pc.lane else 0);
    }
  }

  lemma HoldKeepsVerdicts(s: State, r: nat, op: HoldOp)
    requires r < |s.recvs| && EnabledHold(s, r, op)
    requires Verdicts(s) && Scans(s)
    ensures Verdicts(ApplyHold(s, r, op))
  {
    if AllEmpty(s) {
      HoldKeepsEmpty(s, r, op);
    }
    VerdictsAfter(s, ApplyHold(s, r, op), r);
  }

  // ---- End: counters, verdicts, values

  lemma EndKeepsCounts(s: State, r: nat, op: EndOp)
    requires r < |s.recvs| && EnabledEnd(s, r, op)
    requires RecvCounts(s) && LaneCounts(s)
    ensures var t := ApplyEnd(s, r, op); RecvCounts(t) && LaneCounts(t)
  {
    var t := ApplyEnd(s, r, op);
    RecvCountsAfter(s, t, r);
  }

  lemma EndKeepsEmpty(s: State, r: nat, op: EndOp)
    requires r < |s.recvs| && EnabledEnd(s, r, op)
    requires AllEmpty(s)
    ensures AllEmpty(ApplyEnd(s, r, op))
  {}

  lemma EndConserves(s: State, r: nat, op: EndOp)
    requires r < |s.recvs| && EnabledEnd(s, r, op)
    requires |s.recvs| > 0 && |s.lanes| > 0 && Conserved(s)
    ensures Conserved(ApplyEnd(s, r, op))
  {
    var t := ApplyEnd(s, r, op);
    ConservedAfter(s, t, r, 0);
  }

  lemma EndKeepsVerdicts(s: State, r: nat, op: EndOp)
    requires r < |s.recvs| && EnabledEnd(s, r, op)
    requires Verdicts(s) && Scans(s)
    ensures Verdicts(ApplyEnd(s, r, op))
  {
    if AllEmpty(s) {
      EndKeepsEmpty(s, r, op);
    }
    VerdictsAfter(s, ApplyEnd(s, r, op), r);
  }

  // ---- Clone: counters, verdicts, values

  lemma CloneListCounts(s: State, r: nat)
    requires r < |s.recvs| && EnabledClone(s, r, CloneList) && RecvCounts(s)
    ensures RecvCounts(ApplyClone(s, r, CloneList))
  {
    var t := ApplyClone(s, r, CloneList);
    var mid := s.(recvs := s.recvs[r := t.recvs[r]]);
    RecvCountsAfter(s, mid, r);
    assert t.recvs[..|s.recvs|] == mid.recvs;
  }

  lemma CloneCountCounts(s: State, r: nat)
    requires r < |s.recvs| && EnabledClone(s, r, CloneCount) && RecvCounts(s) && Births(s)
    ensures RecvCounts(ApplyClone(s, r, CloneCount))
  {
    var t := ApplyClone(s, r, CloneCount);
    var c := s.recvs[r].pc.child;
    var mid := s.(recvs := s.recvs[c := t.recvs[c]], liveReceivers := t.liveReceivers);
    RecvCountsAfter(s, mid, c);
    RecvCountsAfter(mid, t, r);
  }

  lemma CloneKeepsCounts(s: State, r: nat, op: CloneOp)
    requires r < |s.recvs| && EnabledClone(s, r, op)
    requires RecvCounts(s) && LaneCounts(s) && Births(s)
    ensures var t := ApplyClone(s, r, op); RecvCounts(t) && LaneCounts(t)
  {
    var t := ApplyClone(s, r, op);
    if op.CloneList? {
      CloneListCounts(s, r);
    } else if op.CloneCount? {
      CloneCountCounts(s, r);
    } else {
      RecvCountsAfter(s, t, r);
    }
  }

  lemma CloneKeepsEmpty(s: State, r: nat, op: CloneOp)
    requires r < |s.recvs| && EnabledClone(s, r, op)
    requires AllEmpty(s)
    ensures AllEmpty(ApplyClone(s, r, op))
  {}

  lemma CloneConserves(s: State, r: nat, op: CloneOp)
    requires r < |s.recvs| && EnabledClone(s, r, op)
    requires |s.recvs| > 0 && |s.lanes| > 0 && Conserved(s)
    ensures Conserved(ApplyClone(s, r, op))
  {
    var t := ApplyClone(s, r, op);
    if op.CloneList? {
      var mid := s.(recvs := s.recvs[r := t.recvs[r]]);
      ConservedAfter(s, mid, r, 0);
      assert t.recvs[..|s.recvs|] == mid.recvs;
    } else if op.CloneCount? {
      var c := s.recvs[r].pc.child;
      var mid := s.(recvs := s.recvs[c := t.recvs[c]]);
      ConservedAfter(s, mid, c, 0);
      ConservedAfter(mid, t, r, 0);
    } else {
      ConservedAfter(s, t, r, 0);
    }
  }

  lemma CloneKeepsVerdicts(s: State, r: nat, op: CloneOp)
    requires r < |s.recvs| && EnabledClone(s, r, op)
    requires Verdicts(s) && Scans(s)
    ensures Verdicts(ApplyClone(s, r, op))
  {
    if AllEmpty(s) {
      CloneKeepsEmpty(s, r, op);
    }
    VerdictsAfter(s, ApplyClone(s, r, op), r);
  }

  // ---- Drop: counters, verdicts, values

  lemma DropKeepsCounts(s: State, r: nat, op: DropOp)
    requires r < |s.recvs| && EnabledDrop(s, r, op)
    requires Shape(s) && RecvCounts(s) && LaneCounts(s)
    ensures var t := ApplyDrop(s, r, op); RecvCounts(t) && LaneCounts(t)
  {
    var t := ApplyDrop(s, r, op);
    RecvCountsAfter(s, t, r);
  }

  lemma DropKeepsEmpty(s: State, r: nat, op: DropOp)
    requires r < |s.recvs| && EnabledDrop(s, r, op)
    requires AllEmpty(s)
    ensures AllEmpty(ApplyDrop(s, r, op))
  {}

  lemma DropConserves(s: State, r: nat, op: DropOp)
    requires r < |s.recvs| && EnabledDrop(s, r, op)
    requires |s.recvs| > 0 && |s.lanes| > 0 && Conserved(s) && Shape(s)
    ensures Conserved(ApplyDrop(s, r, op))
  {
    var t := ApplyDrop(s, r, op);
    ConservedAfter(s, t, r, 0);
  }

  lemma DropKeepsVerdicts(s: State, r: nat, op: DropOp)
    requires r < |s.recvs| && EnabledDrop(s, r, op)
    requires Verdicts(s) && Scans(s)
    ensures Verdicts(ApplyDrop(s, r, op))
  {
    if AllEmpty(s) {
      DropKeepsEmpty(s, r, op);
    }
    VerdictsAfter(s, ApplyDrop(s, r, op), r);
  }

  // ---- the decision

  /** The second in-flight read: if no publication overlapped the scan, nothing
      is left anywhere. */
  lemma SecondFlightRead(s: State, r: nat)
    requires r < |s.recvs| && EnabledCheck(s, r, FlightNoneAgain)
    requires Shape(s) && Sole(s) && Rings(s) && RecvCounts(s) && LaneCounts(s) && Scans(s) && Verdicts(s)
    ensures s.gen != s.recvs[r].pc.gen || AllEmpty(s)
  {
    var pc := s.recvs[r].pc;
    if s.gen == pc.gen {
      RecvCountZero(s.recvs, Publications);
      RecvCountZero(s.recvs, OpenPublications);
      LaneCountZero(s.lanes, RegisteredLanes);
      assert forall q | 0 <= q < |s.recvs| :: !CountsRecv(Publications, s.recvs[q]) && !CountsRecv(OpenPublications, s.recvs[q]);
      assert Undisturbed(s, pc.gen) && Scanned(s, pc.saw, {});
      assert forall l | 0 <= l < |s.lanes| :: !CountsLane(RegisteredLanes, s.lanes[l]);
      assert forall q | 0 <= q < |s.recvs| :: !Carrying(s.recvs[q].pc);
    }
  }

  lemma CheckKeepsVerdicts(s: State, r: nat, op: CheckOp)
    requires r < |s.recvs| && EnabledCheck(s, r, op)
    requires Shape(s) && Sole(s) && Rings(s) && RecvCounts(s) && LaneCounts(s) && Scans(s) && Verdicts(s)
    ensures Verdicts(ApplyCheck(s, r, op))
  {
    if op.FlightNoneAgain? {
      SecondFlightRead(s, r);
    }
    if AllEmpty(s) {
      CheckKeepsEmpty(s, r, op);
    }
  }

  lemma SenderKeepsInv(s: State, l: nat, op: SenderOp)
    requires EnabledSender(s, l, op) && Inv(s)
    ensures Inv(ApplySender(s, l, op))
  {
    hide RecvCounts, LaneCounts, Scans, Verdicts, Conserved, Tokens, Rings;
    SenderKeepsTokens(s, l, op);
    SenderKeepsRings(s, l, op);
    SenderKeepsCounts(s, l, op);
    SenderIsCalm(s, l, op);
    ScansAfter(s, ApplySender(s, l, op), -1);
    SenderKeepsVerdicts(s, l, op);
    SenderConserves(s, l, op);
  }

  lemma PopKeepsInv(s: State, r: nat, op: PopOp)
    requires r < |s.recvs| && EnabledPop(s, r, op) && Inv(s)
    ensures Inv(ApplyPop(s, r, op))
  {
    hide Shape, Births, Tokens, Sole, RecvCounts, LaneCounts, Scans, Verdicts, Conserved;
    PopKeepsShape(s, r, op);
    PopKeepsBirths(s, r, op);
    PopKeepsTokens(s, r, op);
    PopKeepsSole(s, r, op);
    PopKeepsCounts(s, r, op);
    PopIsCalm(s, r, op);
    PopKeepsFacts(s, r, op);
    ScansAfter(s, ApplyPop(s, r, op), r);
    PopKeepsVerdicts(s, r, op);
    PopConserves(s, r, op);
  }

  lemma ScanKeepsInv(s: State, r: nat, op: ScanOp)
    requires r < |s.recvs| && EnabledScan(s, r, op) && Inv(s)
    ensures Inv(ApplyScan(s, r, op))
  {
    hide Shape, Births, Tokens, Sole, RecvCounts, LaneCounts, Scans, Verdicts, Conserved;
    ScanKeepsShape(s, r, op);
    ScanKeepsBirths(s, r, op);
    ScanKeepsTokens(s, r, op);
    ScanKeepsSole(s, r, op);
    ScanKeepsCounts(s, r, op);
    ScanIsCalm(s, r, op);
    ScanKeepsFacts(s, r, op);
    ScansAfter(s, ApplyScan(s, r, op), r);
    ScanKeepsVerdicts(s, r, op);
    ScanConserves(s, r, op);
  }

  lemma CheckKeepsInv(s: State, r: nat, op: CheckOp)
    requires r < |s.recvs| && EnabledCheck(s, r, op) && Inv(s)
    ensures Inv(ApplyCheck(s, r, op))
  {
    hide Shape, Births, Tokens, Sole, RecvCounts, LaneCounts, Scans, Verdicts, Conserved;
    CheckKeepsShape(s, r, op);
    CheckKeepsBirths(s, r, op);
    CheckKeepsTokens(s, r, op);
    CheckKeepsSole(s, r, op);
    CheckKeepsCounts(s, r, op);
    CheckIsCalm(s, r, op);
    CheckKeepsFacts(s, r, op);
    ScansAfter(s, ApplyCheck(s, r, op), r);
    CheckKeepsVerdicts(s, r, op);
    CheckConserves(s, r, op);
  }

  lemma StealKeepsInv(s: State, r: nat, op: StealOp)
    requires r < |s.recvs| && EnabledSteal(s, r, op) && Inv(s)
    ensures Inv(ApplySteal(s, r, op))
  {
    hide Shape, Births, Tokens, Sole, RecvCounts, LaneCounts, Scans, Verdicts, Conserved;
    StealKeepsShape(s, r, op);
    StealKeepsBirths(s, r, op);
    StealKeepsTokens(s, r, op);
    StealKeepsSole(s, r, op);
    StealKeepsCounts(s, r, op);
    StealIsCalm(s, r, op);
    StealKeepsFacts(s, r, op);
    ScansAfter(s, ApplySteal(s, r, op), r);
    StealKeepsVerdicts(s, r, op);
    StealConserves(s, r, op);
  }

  lemma HoldKeepsInv(s: State, r: nat, op: HoldOp)
    requires r < |s.recvs| && EnabledHold(s, r, op) && Inv(s)
    ensures Inv(ApplyHold(s, r, op))
  {
    hide Shape, Births, Tokens, Sole, RecvCounts, LaneCounts, Scans, Verdicts, Conserved;
    HoldKeepsShape(s, r, op);
    HoldKeepsBirths(s, r, op);
    HoldKeepsTokens(s, r, op);
    HoldKeepsSole(s, r, op);
    HoldKeepsRings(s, r, op);
    HoldKeepsCounts(s, r, op);
    HoldIsCalm(s, r, op);
    HoldKeepsFacts(s, r, op);
    ScansAfter(s, ApplyHold(s, r, op), r);
    HoldKeepsVerdicts(s, r, op);
    HoldConserves(s, r, op);
  }

  lemma EndKeepsInv(s: State, r: nat, op: EndOp)
    requires r < |s.recvs| && EnabledEnd(s, r, op) && Inv(s)
    ensures Inv(ApplyEnd(s, r, op))
  {
    hide Shape, Births, Tokens, Sole, RecvCounts, LaneCounts, Scans, Verdicts, Conserved;
    EndKeepsShape(s, r, op);
    EndKeepsBirths(s, r, op);
    EndKeepsTokens(s, r, op);
    EndKeepsSole(s, r, op);
    EndKeepsCounts(s, r, op);
    EndIsCalm(s, r, op);
    EndKeepsFacts(s, r, op);
    ScansAfter(s, ApplyEnd(s, r, op), r);
    EndKeepsVerdicts(s, r, op);
    EndConserves(s, r, op);
  }

  lemma CloneKeepsInv(s: State, r: nat, op: CloneOp)
    requires r < |s.recvs| && EnabledClone(s, r, op) && Inv(s)
    ensures Inv(ApplyClone(s, r, op))
  {
    hide Shape, Births, Tokens, Sole, RecvCounts, LaneCounts, Scans, Verdicts, Conserved;
    CloneKeepsShape(s, r, op);
    CloneKeepsBirths(s, r, op);
    CloneKeepsTokens(s, r, op);
    CloneKeepsSole(s, r, op);
    CloneKeepsCounts(s, r, op);
    CloneIsCalm(s, r, op);
    CloneKeepsFacts(s, r, op);
    ScansAfter(s, ApplyClone(s, r, op), r);
    CloneKeepsVerdicts(s, r, op);
    CloneConserves(s, r, op);
  }

  lemma DropKeepsInv(s: State, r: nat, op: DropOp)
    requires r < |s.recvs| && EnabledDrop(s, r, op) && Inv(s)
    ensures Inv(ApplyDrop(s, r, op))
  {
    hide Shape, Births, Tokens, Sole, RecvCounts, LaneCounts, Scans, Verdicts, Conserved;
    DropKeepsShape(s, r, op);
    DropKeepsBirths(s, r, op);
    DropKeepsTokens(s, r, op);
    DropKeepsSole(s, r, op);
    DropKeepsCounts(s, r, op);
    DropIsCalm(s, r, op);
    DropKeepsFacts(s, r, op);
    ScansAfter(s, ApplyDrop(s, r, op), r);
    DropKeepsVerdicts(s, r, op);
    DropConserves(s, r, op);
  }
}
