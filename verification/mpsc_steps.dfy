/** Every step keeps the invariant. Each lemma names the parts of the invariant
    it needs, so that a step's effect on one part is checked on its own. */
module MpscSteps {
  import opened MpscModel
  import opened MpscInvariant

  // ---- senders publish

  lemma PublishKeepsRings(s: State, i: nat, op: PublishOp)
    requires i < |s.lanes| && EnabledPublish(s, i, op)
    requires Basic(s) && Life(s)
    ensures var s' := ApplyPublish(s, i, op); Basic(s') && Life(s')
  {}

  lemma PublishKeepsControl(s: State, i: nat, op: PublishOp)
    requires i < |s.lanes| && EnabledPublish(s, i, op)
    requires Basic(s) && Life(s) && Control(s)
    requires Basic(ApplyPublish(s, i, op))
    ensures Control(ApplyPublish(s, i, op))
  {}

  lemma PublishKeepsSlots(s: State, i: nat, op: PublishOp)
    requires i < |s.lanes| && EnabledPublish(s, i, op)
    requires Distinct(s)
    ensures Distinct(ApplyPublish(s, i, op))
  {
    hide Distinct;
    DistinctKept(s, ApplyPublish(s, i, op));
  }

  lemma PublishKeepsPlain(s: State, i: nat, op: PublishOp)
    requires i < |s.lanes| && EnabledPublish(s, i, op)
    requires Basic(s) && PlainSends(s)
    ensures PlainSends(ApplyPublish(s, i, op))
  {}

  lemma PublishKeepsIndex(s: State, i: nat, op: PublishOp)
    requires i < |s.lanes| && EnabledPublish(s, i, op)
    requires Basic(s) && Distinct(s) && Index(s)
    ensures Index(ApplyPublish(s, i, op))
  {}

  lemma PublishKeepsToken(s: State, i: nat, op: PublishOp)
    requires i < |s.lanes| && EnabledPublish(s, i, op)
    requires Basic(s) && Token(s) && Data(s) && Credit(s) && ScanProgress(s)
    ensures var s' := ApplyPublish(s, i, op); Token(s') && Data(s') && Credit(s') && ScanProgress(s')
  {}

  lemma PublishKeepsPages(s: State, i: nat, op: PublishOp)
    requires i < |s.lanes| && EnabledPublish(s, i, op)
    requires Basic(s) && Control(s) && Owed(s) && Pages(s) && Wakeup(s)
    ensures var s' := ApplyPublish(s, i, op); Pages(s') && Owed(s')
  {}

  lemma PublishKeepsWakeup(s: State, i: nat, op: PublishOp)
    requires i < |s.lanes| && EnabledPublish(s, i, op)
    requires Basic(s) && Control(s) && Owed(s) && Pages(s) && Wakeup(s)
    ensures Wakeup(ApplyPublish(s, i, op))
  {}

  lemma PublishKeepsSpace(s: State, i: nat, op: PublishOp)
    requires i < |s.lanes| && EnabledPublish(s, i, op)
    requires Basic(s) && SpaceOwed(s) && SpaceFullRing(s)
    ensures var s' := ApplyPublish(s, i, op); SpaceOwed(s') && SpaceFullRing(s')
  {}

  lemma PublishKeepsCounts(s: State, i: nat, op: PublishOp)
    requires i < |s.lanes| && EnabledPublish(s, i, op)
    requires Life(s) && Counts(s)
    ensures Counts(ApplyPublish(s, i, op))
  {
    CountsAfter(s, ApplyPublish(s, i, op), i);
  }

  lemma PublishKeepsInv(s: State, i: nat, op: PublishOp)
    requires i < |s.lanes| && EnabledPublish(s, i, op) && Inv(s)
    ensures Inv(ApplyPublish(s, i, op))
  {
    PublishKeepsRings(s, i, op);
    PublishKeepsControl(s, i, op);
    PublishKeepsSlots(s, i, op);
    PublishKeepsPlain(s, i, op);
    PublishKeepsIndex(s, i, op);
    PublishKeepsToken(s, i, op);
    PublishKeepsPages(s, i, op);
    PublishKeepsWakeup(s, i, op);
    PublishKeepsSpace(s, i, op);
    PublishKeepsCounts(s, i, op);
  }

  // ---- senders mark and notify

  lemma MarkKeepsRings(s: State, i: nat, op: MarkOp)
    requires i < |s.lanes| && EnabledMark(s, i, op)
    requires Basic(s)
    ensures Basic(ApplyMark(s, i, op))
  {}

  lemma MarkKeepsLife(s: State, i: nat, op: MarkOp)
    requires i < |s.lanes| && EnabledMark(s, i, op)
    requires Basic(s) && Life(s)
    ensures Life(ApplyMark(s, i, op))
  {}

  lemma MarkKeepsControl(s: State, i: nat, op: MarkOp)
    requires i < |s.lanes| && EnabledMark(s, i, op)
    requires Basic(s) && Life(s) && Control(s)
    requires Basic(ApplyMark(s, i, op))
    ensures Control(ApplyMark(s, i, op))
  {}

  lemma MarkKeepsSlots(s: State, i: nat, op: MarkOp)
    requires i < |s.lanes| && EnabledMark(s, i, op)
    requires Distinct(s)
    ensures Distinct(ApplyMark(s, i, op))
  {
    hide Distinct;
    DistinctKept(s, ApplyMark(s, i, op));
  }

  lemma MarkKeepsPlain(s: State, i: nat, op: MarkOp)
    requires i < |s.lanes| && EnabledMark(s, i, op)
    requires Basic(s) && PlainSends(s)
    ensures PlainSends(ApplyMark(s, i, op))
  {}

  lemma MarkKeepsIndex(s: State, i: nat, op: MarkOp)
    requires i < |s.lanes| && EnabledMark(s, i, op)
    requires Index(s)
    ensures Index(ApplyMark(s, i, op))
  {}

  lemma MarkKeepsToken(s: State, i: nat, op: MarkOp)
    requires i < |s.lanes| && EnabledMark(s, i, op)
    requires Token(s)
    ensures Token(ApplyMark(s, i, op))
  {}

  lemma MarkKeepsData(s: State, i: nat, op: MarkOp)
    requires i < |s.lanes| && EnabledMark(s, i, op)
    requires Basic(s) && Data(s) && Credit(s) && ScanProgress(s)
    ensures var s' := ApplyMark(s, i, op); Data(s') && Credit(s') && ScanProgress(s')
  {}

  lemma MarkKeepsPages(s: State, i: nat, op: MarkOp)
    requires i < |s.lanes| && EnabledMark(s, i, op)
    requires Pages(s)
    ensures Pages(ApplyMark(s, i, op))
  {}

  lemma MarkKeepsWakeup(s: State, i: nat, op: MarkOp)
    requires i < |s.lanes| && EnabledMark(s, i, op)
    requires Basic(s) && Control(s) && Owed(s) && Wakeup(s)
    ensures var s' := ApplyMark(s, i, op); Wakeup(s') && Owed(s')
  {}

  lemma MarkKeepsSpaceOwed(s: State, i: nat, op: MarkOp)
    requires i < |s.lanes| && EnabledMark(s, i, op)
    requires Basic(s) && SpaceOwed(s) && SpaceFullRing(s)
    ensures SpaceOwed(ApplyMark(s, i, op))
  {}

  lemma MarkKeepsSpace(s: State, i: nat, op: MarkOp)
    requires i < |s.lanes| && EnabledMark(s, i, op)
    requires Basic(s) && SpaceOwed(s) && SpaceFullRing(s)
    ensures SpaceFullRing(ApplyMark(s, i, op))
  {}

  lemma MarkKeepsCounts(s: State, i: nat, op: MarkOp)
    requires i < |s.lanes| && EnabledMark(s, i, op)
    requires Life(s) && Counts(s)
    ensures Counts(ApplyMark(s, i, op))
  {
    CountsAfter(s, ApplyMark(s, i, op), i);
  }

  lemma MarkKeepsInv(s: State, i: nat, op: MarkOp)
    requires i < |s.lanes| && EnabledMark(s, i, op) && Inv(s)
    ensures Inv(ApplyMark(s, i, op))
  {
    MarkKeepsRings(s, i, op);
    MarkKeepsLife(s, i, op);
    MarkKeepsControl(s, i, op);
    MarkKeepsSlots(s, i, op);
    MarkKeepsPlain(s, i, op);
    MarkKeepsIndex(s, i, op);
    MarkKeepsToken(s, i, op);
    MarkKeepsData(s, i, op);
    MarkKeepsPages(s, i, op);
    MarkKeepsWakeup(s, i, op);
    MarkKeepsSpaceOwed(s, i, op);
    MarkKeepsSpace(s, i, op);
    MarkKeepsCounts(s, i, op);
  }

  // ---- senders wait for capacity

  lemma SpaceKeepsRings(s: State, i: nat, op: SpaceOp)
    requires i < |s.lanes| && EnabledSpace(s, i, op)
    requires Basic(s) && Life(s)
    ensures var s' := ApplySpace(s, i, op); Basic(s') && Life(s')
  {}

  lemma SpaceKeepsControl(s: State, i: nat, op: SpaceOp)
    requires i < |s.lanes| && EnabledSpace(s, i, op)
    requires Basic(s) && Life(s) && Control(s)
    requires Basic(ApplySpace(s, i, op))
    ensures Control(ApplySpace(s, i, op))
  {}

  lemma SpaceKeepsSlots(s: State, i: nat, op: SpaceOp)
    requires i < |s.lanes| && EnabledSpace(s, i, op)
    requires Distinct(s)
    ensures Distinct(ApplySpace(s, i, op))
  {
    hide Distinct;
    DistinctKept(s, ApplySpace(s, i, op));
  }

  lemma SpaceKeepsPlain(s: State, i: nat, op: SpaceOp)
    requires i < |s.lanes| && EnabledSpace(s, i, op)
    requires Basic(s) && PlainSends(s)
    ensures PlainSends(ApplySpace(s, i, op))
  {}

  lemma SpaceKeepsIndex(s: State, i: nat, op: SpaceOp)
    requires i < |s.lanes| && EnabledSpace(s, i, op)
    requires Basic(s) && Distinct(s) && Index(s)
    ensures Index(ApplySpace(s, i, op))
  {}

  lemma SpaceKeepsToken(s: State, i: nat, op: SpaceOp)
    requires i < |s.lanes| && EnabledSpace(s, i, op)
    requires Basic(s) && Token(s) && Data(s) && Credit(s) && ScanProgress(s)
    ensures var s' := ApplySpace(s, i, op); Token(s') && Data(s') && Credit(s') && ScanProgress(s')
  {}

  lemma SpaceKeepsPages(s: State, i: nat, op: SpaceOp)
    requires i < |s.lanes| && EnabledSpace(s, i, op)
    requires Basic(s) && Control(s) && Owed(s) && Pages(s) && Wakeup(s)
    ensures var s' := ApplySpace(s, i, op); Pages(s') && Owed(s')
  {}

  lemma SpaceKeepsWakeup(s: State, i: nat, op: SpaceOp)
    requires i < |s.lanes| && EnabledSpace(s, i, op)
    requires Basic(s) && Control(s) && Owed(s) && Pages(s) && Wakeup(s)
    ensures Wakeup(ApplySpace(s, i, op))
  {}

  lemma SpaceKeepsSpace(s: State, i: nat, op: SpaceOp)
    requires i < |s.lanes| && EnabledSpace(s, i, op)
    requires Basic(s) && SpaceOwed(s) && SpaceFullRing(s)
    ensures var s' := ApplySpace(s, i, op); SpaceOwed(s') && SpaceFullRing(s')
  {}

  lemma SpaceKeepsCounts(s: State, i: nat, op: SpaceOp)
    requires i < |s.lanes| && EnabledSpace(s, i, op)
    requires Life(s) && Counts(s)
    ensures Counts(ApplySpace(s, i, op))
  {
    CountsAfter(s, ApplySpace(s, i, op), i);
  }

  lemma SpaceKeepsInv(s: State, i: nat, op: SpaceOp)
    requires i < |s.lanes| && EnabledSpace(s, i, op) && Inv(s)
    ensures Inv(ApplySpace(s, i, op))
  {
    SpaceKeepsRings(s, i, op);
    SpaceKeepsControl(s, i, op);
    SpaceKeepsSlots(s, i, op);
    SpaceKeepsPlain(s, i, op);
    SpaceKeepsIndex(s, i, op);
    SpaceKeepsToken(s, i, op);
    SpaceKeepsPages(s, i, op);
    SpaceKeepsWakeup(s, i, op);
    SpaceKeepsSpace(s, i, op);
    SpaceKeepsCounts(s, i, op);
  }

  // ---- the receiver collects ready lanes

  lemma CollectKeepsLife(s: State, op: CollectOp)
    requires EnabledCollect(s, op)
    requires Basic(s) && Life(s) && Control(s) && Counts(s)
    ensures Life(ApplyCollect(s, op))
  {}

  lemma CollectKeepsRings(s: State, op: CollectOp)
    requires EnabledCollect(s, op)
    requires Basic(s) && Life(s) && Control(s) && Counts(s)
    ensures Basic(ApplyCollect(s, op))
  {}

  lemma CollectKeepsControl(s: State, op: CollectOp)
    requires EnabledCollect(s, op)
    requires Basic(s) && Life(s) && Control(s)
    requires Basic(ApplyCollect(s, op))
    ensures Control(ApplyCollect(s, op))
  {}

  lemma CollectKeepsSlots(s: State, op: CollectOp)
    requires EnabledCollect(s, op)
    requires Distinct(s)
    ensures Distinct(ApplyCollect(s, op))
  {
    hide Distinct;
    DistinctKept(s, ApplyCollect(s, op));
  }

  lemma CollectKeepsPlain(s: State, op: CollectOp)
    requires EnabledCollect(s, op)
    requires Basic(s) && PlainSends(s)
    ensures PlainSends(ApplyCollect(s, op))
  {}

  lemma CollectKeepsIndex(s: State, op: CollectOp)
    requires EnabledCollect(s, op)
    requires Basic(s) && Distinct(s) && Index(s)
    ensures Index(ApplyCollect(s, op))
  {}

  lemma CollectKeepsData(s: State, op: CollectOp)
    requires EnabledCollect(s, op)
    requires Basic(s) && Control(s) && Data(s) && Credit(s) && ScanProgress(s)
    ensures var s' := ApplyCollect(s, op); Data(s') && Credit(s') && ScanProgress(s')
  {}

  lemma CollectKeepsToken(s: State, op: CollectOp)
    requires EnabledCollect(s, op)
    requires Basic(s) && Distinct(s) && Index(s) && Control(s) && Token(s)
    ensures Token(ApplyCollect(s, op))
  {}

  lemma CollectKeepsPages(s: State, op: CollectOp)
    requires EnabledCollect(s, op)
    requires Basic(s) && Index(s) && Control(s) && Owed(s) && Pages(s)
    ensures var s' := ApplyCollect(s, op); Pages(s') && Owed(s')
  {}

  lemma CollectKeepsWakeup(s: State, op: CollectOp)
    requires EnabledCollect(s, op)
    requires Basic(s) && Index(s) && Control(s) && Owed(s) && Pages(s) && Wakeup(s)
    ensures Wakeup(ApplyCollect(s, op))
  {}

  lemma CollectKeepsSpace(s: State, op: CollectOp)
    requires EnabledCollect(s, op)
    requires Basic(s) && SpaceOwed(s) && SpaceFullRing(s)
    ensures var s' := ApplyCollect(s, op); SpaceOwed(s') && SpaceFullRing(s')
  {}

  lemma CollectKeepsCounts(s: State, op: CollectOp)
    requires EnabledCollect(s, op)
    requires Counts(s)
    ensures Counts(ApplyCollect(s, op))
  {
    CountsKept(s, ApplyCollect(s, op));
  }

  lemma CollectKeepsInv(s: State, op: CollectOp)
    requires EnabledCollect(s, op) && Inv(s)
    ensures Inv(ApplyCollect(s, op))
  {
    CollectKeepsLife(s, op);
    CollectKeepsRings(s, op);
    CollectKeepsControl(s, op);
    CollectKeepsSlots(s, op);
    CollectKeepsPlain(s, op);
    CollectKeepsIndex(s, op);
    CollectKeepsData(s, op);
    CollectKeepsToken(s, op);
    CollectKeepsPages(s, op);
    CollectKeepsWakeup(s, op);
    CollectKeepsSpace(s, op);
    CollectKeepsCounts(s, op);
  }

  // ---- the receiver consumes

  lemma ConsumeKeepsRings(s: State, i: nat, op: ConsumeOp)
    requires i < |s.lanes| && EnabledConsume(s, i, op)
    requires Basic(s) && Control(s)
    ensures Basic(ApplyConsume(s, i, op))
  {}

  lemma ConsumeKeepsLife(s: State, i: nat, op: ConsumeOp)
    requires i < |s.lanes| && EnabledConsume(s, i, op)
    requires Basic(s) && Life(s) && Control(s) && Counts(s)
    ensures Life(ApplyConsume(s, i, op))
  {}

  lemma ConsumeKeepsControl(s: State, i: nat, op: ConsumeOp)
    requires i < |s.lanes| && EnabledConsume(s, i, op)
    requires Basic(s) && Life(s) && Control(s)
    requires Basic(ApplyConsume(s, i, op))
    ensures Control(ApplyConsume(s, i, op))
  {}

  lemma ConsumeKeepsSlots(s: State, i: nat, op: ConsumeOp)
    requires i < |s.lanes| && EnabledConsume(s, i, op)
    requires Distinct(s)
    ensures Distinct(ApplyConsume(s, i, op))
  {
    hide Distinct;
    DistinctKept(s, ApplyConsume(s, i, op));
  }

  lemma ConsumeKeepsPlain(s: State, i: nat, op: ConsumeOp)
    requires i < |s.lanes| && EnabledConsume(s, i, op)
    requires Basic(s) && PlainSends(s)
    ensures PlainSends(ApplyConsume(s, i, op))
  {}

  lemma ConsumeKeepsIndex(s: State, i: nat, op: ConsumeOp)
    requires i < |s.lanes| && EnabledConsume(s, i, op)
    requires Basic(s) && Index(s)
    ensures Index(ApplyConsume(s, i, op))
  {}

  lemma ConsumeKeepsToken(s: State, i: nat, op: ConsumeOp)
    requires i < |s.lanes| && EnabledConsume(s, i, op)
    requires Basic(s) && Distinct(s) && Index(s) && Control(s) && Token(s)
    ensures Token(ApplyConsume(s, i, op))
  {}

  lemma ConsumeKeepsData(s: State, i: nat, op: ConsumeOp)
    requires i < |s.lanes| && EnabledConsume(s, i, op)
    requires Basic(s) && Control(s) && Data(s) && Credit(s) && ScanProgress(s)
    ensures var s' := ApplyConsume(s, i, op); Data(s') && Credit(s') && ScanProgress(s')
  {}

  lemma ConsumeKeepsPages(s: State, i: nat, op: ConsumeOp)
    requires i < |s.lanes| && EnabledConsume(s, i, op)
    requires Basic(s) && Index(s) && Control(s) && Pages(s)
    ensures Pages(ApplyConsume(s, i, op))
  {}

  lemma ConsumeKeepsWakeup(s: State, i: nat, op: ConsumeOp)
    requires i < |s.lanes| && EnabledConsume(s, i, op)
    requires Basic(s) && Index(s) && Control(s) && Owed(s) && Pages(s) && Wakeup(s)
    ensures var s' := ApplyConsume(s, i, op); Wakeup(s') && Owed(s')
  {}

  lemma ConsumeKeepsSpaceOwed(s: State, i: nat, op: ConsumeOp)
    requires i < |s.lanes| && EnabledConsume(s, i, op)
    requires Basic(s) && SpaceOwed(s) && SpaceFullRing(s)
    ensures SpaceOwed(ApplyConsume(s, i, op))
  {}

  lemma ConsumeKeepsSpace(s: State, i: nat, op: ConsumeOp)
    requires i < |s.lanes| && EnabledConsume(s, i, op)
    requires Basic(s) && SpaceOwed(s) && SpaceFullRing(s)
    ensures SpaceFullRing(ApplyConsume(s, i, op))
  {}

  lemma ConsumeKeepsCounts(s: State, i: nat, op: ConsumeOp)
    requires i < |s.lanes| && EnabledConsume(s, i, op)
    requires Basic(s) && Control(s) && Counts(s)
    ensures Counts(ApplyConsume(s, i, op))
  {
    CountsAfter(s, ApplyConsume(s, i, op), i);
  }

  lemma ConsumeKeepsInv(s: State, i: nat, op: ConsumeOp)
    requires i < |s.lanes| && EnabledConsume(s, i, op) && Inv(s)
    ensures Inv(ApplyConsume(s, i, op))
  {
    ConsumeKeepsRings(s, i, op);
    ConsumeKeepsLife(s, i, op);
    ConsumeKeepsControl(s, i, op);
    ConsumeKeepsSlots(s, i, op);
    ConsumeKeepsPlain(s, i, op);
    ConsumeKeepsIndex(s, i, op);
    ConsumeKeepsToken(s, i, op);
    ConsumeKeepsData(s, i, op);
    ConsumeKeepsPages(s, i, op);
    ConsumeKeepsWakeup(s, i, op);
    ConsumeKeepsSpaceOwed(s, i, op);
    ConsumeKeepsSpace(s, i, op);
    ConsumeKeepsCounts(s, i, op);
  }

  // ---- the receiver settles an empty lane

  lemma SettleKeepsRings(s: State, i: nat, op: SettleOp)
    requires i < |s.lanes| && EnabledSettle(s, i, op)
    requires Basic(s) && Control(s)
    ensures Basic(ApplySettle(s, i, op))
  {}

  lemma SettleKeepsLife(s: State, i: nat, op: SettleOp)
    requires i < |s.lanes| && EnabledSettle(s, i, op)
    requires Basic(s) && Life(s) && Control(s) && Counts(s)
    ensures Life(ApplySettle(s, i, op))
  {}

  lemma SettleKeepsControl(s: State, i: nat, op: SettleOp)
    requires i < |s.lanes| && EnabledSettle(s, i, op)
    requires Basic(s) && Life(s) && Control(s)
    requires Basic(ApplySettle(s, i, op))
    ensures Control(ApplySettle(s, i, op))
  {}

  lemma SettleKeepsSlots(s: State, i: nat, op: SettleOp)
    requires i < |s.lanes| && EnabledSettle(s, i, op)
    requires Distinct(s)
    ensures Distinct(ApplySettle(s, i, op))
  {
    hide Distinct;
    DistinctKept(s, ApplySettle(s, i, op));
  }

  lemma SettleKeepsPlain(s: State, i: nat, op: SettleOp)
    requires i < |s.lanes| && EnabledSettle(s, i, op)
    requires Basic(s) && PlainSends(s)
    ensures PlainSends(ApplySettle(s, i, op))
  {}

  lemma SettleKeepsIndex(s: State, i: nat, op: SettleOp)
    requires i < |s.lanes| && EnabledSettle(s, i, op)
    requires Basic(s) && Index(s)
    ensures Index(ApplySettle(s, i, op))
  {}

  lemma SettleKeepsToken(s: State, i: nat, op: SettleOp)
    requires i < |s.lanes| && EnabledSettle(s, i, op)
    requires Basic(s) && Distinct(s) && Index(s) && Control(s) && Token(s)
    ensures Token(ApplySettle(s, i, op))
  {}

  lemma SettleKeepsData(s: State, i: nat, op: SettleOp)
    requires i < |s.lanes| && EnabledSettle(s, i, op)
    requires Basic(s) && Control(s) && Data(s) && Credit(s) && ScanProgress(s)
    ensures Data(ApplySettle(s, i, op))
  {}

  lemma SettleKeepsCredit(s: State, i: nat, op: SettleOp)
    requires i < |s.lanes| && EnabledSettle(s, i, op)
    requires Basic(s) && Control(s) && Data(s) && Credit(s) && ScanProgress(s)
    ensures var s' := ApplySettle(s, i, op); Credit(s') && ScanProgress(s')
  {}

  lemma SettleKeepsPages(s: State, i: nat, op: SettleOp)
    requires i < |s.lanes| && EnabledSettle(s, i, op)
    requires Basic(s) && Index(s) && Control(s) && Pages(s)
    ensures Pages(ApplySettle(s, i, op))
  {}

  lemma SettleKeepsWakeup(s: State, i: nat, op: SettleOp)
    requires i < |s.lanes| && EnabledSettle(s, i, op)
    requires Basic(s) && Index(s) && Control(s) && Owed(s) && Pages(s) && Wakeup(s)
    ensures var s' := ApplySettle(s, i, op); Wakeup(s') && Owed(s')
  {}

  lemma SettleKeepsSpace(s: State, i: nat, op: SettleOp)
    requires i < |s.lanes| && EnabledSettle(s, i, op)
    requires Basic(s) && SpaceOwed(s) && SpaceFullRing(s)
    ensures var s' := ApplySettle(s, i, op); SpaceOwed(s') && SpaceFullRing(s')
  {}

  lemma SettleKeepsCounts(s: State, i: nat, op: SettleOp)
    requires i < |s.lanes| && EnabledSettle(s, i, op)
    requires Basic(s) && Control(s) && Counts(s)
    ensures Counts(ApplySettle(s, i, op))
  {
    CountsAfter(s, ApplySettle(s, i, op), i);
  }

  lemma SettleKeepsInv(s: State, i: nat, op: SettleOp)
    requires i < |s.lanes| && EnabledSettle(s, i, op) && Inv(s)
    ensures Inv(ApplySettle(s, i, op))
  {
    SettleKeepsRings(s, i, op);
    SettleKeepsLife(s, i, op);
    SettleKeepsControl(s, i, op);
    SettleKeepsSlots(s, i, op);
    SettleKeepsPlain(s, i, op);
    SettleKeepsIndex(s, i, op);
    SettleKeepsToken(s, i, op);
    SettleKeepsData(s, i, op);
    SettleKeepsCredit(s, i, op);
    SettleKeepsPages(s, i, op);
    SettleKeepsWakeup(s, i, op);
    SettleKeepsSpace(s, i, op);
    SettleKeepsCounts(s, i, op);
  }

  // ---- the receiver pauses, resumes and closes lanes

  lemma ManageKeepsRings(s: State, i: nat, op: ManageOp)
    requires i < |s.lanes| && EnabledManage(s, i, op)
    requires Basic(s) && Control(s)
    ensures Basic(ApplyManage(s, i, op))
  {}

  lemma ManageKeepsLife(s: State, i: nat, op: ManageOp)
    requires i < |s.lanes| && EnabledManage(s, i, op)
    requires Basic(s) && Life(s) && Control(s) && Counts(s)
    ensures Life(ApplyManage(s, i, op))
  {
    CountZero(s.lanes, LiveSenders);
  }

  lemma ManageKeepsControl(s: State, i: nat, op: ManageOp)
    requires i < |s.lanes| && EnabledManage(s, i, op)
    requires Basic(s) && Life(s) && Control(s)
    requires Basic(ApplyManage(s, i, op))
    ensures Control(ApplyManage(s, i, op))
  {}

  lemma ManageKeepsSlots(s: State, i: nat, op: ManageOp)
    requires i < |s.lanes| && EnabledManage(s, i, op)
    requires Distinct(s)
    ensures Distinct(ApplyManage(s, i, op))
  {
    hide Distinct;
    DistinctKept(s, ApplyManage(s, i, op));
  }

  lemma ManageKeepsPlain(s: State, i: nat, op: ManageOp)
    requires i < |s.lanes| && EnabledManage(s, i, op)
    requires Basic(s) && PlainSends(s)
    ensures PlainSends(ApplyManage(s, i, op))
  {}

  lemma ManageKeepsIndex(s: State, i: nat, op: ManageOp)
    requires i < |s.lanes| && EnabledManage(s, i, op)
    requires Basic(s) && Index(s)
    ensures Index(ApplyManage(s, i, op))
  {}

  lemma ManageKeepsToken(s: State, i: nat, op: ManageOp)
    requires i < |s.lanes| && EnabledManage(s, i, op)
    requires Basic(s) && Distinct(s) && Index(s) && Control(s) && Token(s)
    ensures Token(ApplyManage(s, i, op))
  {}

  lemma ManageKeepsData(s: State, i: nat, op: ManageOp)
    requires i < |s.lanes| && EnabledManage(s, i, op)
    requires Basic(s) && Control(s) && Data(s) && Credit(s) && ScanProgress(s)
    ensures var s' := ApplyManage(s, i, op); Data(s') && Credit(s') && ScanProgress(s')
  {}

  lemma ManageKeepsPages(s: State, i: nat, op: ManageOp)
    requires i < |s.lanes| && EnabledManage(s, i, op)
    requires Basic(s) && Index(s) && Control(s) && Pages(s)
    ensures Pages(ApplyManage(s, i, op))
  {}

  lemma ManageKeepsWakeup(s: State, i: nat, op: ManageOp)
    requires i < |s.lanes| && EnabledManage(s, i, op)
    requires Basic(s) && Index(s) && Control(s) && Owed(s) && Pages(s) && Wakeup(s)
    ensures var s' := ApplyManage(s, i, op); Wakeup(s') && Owed(s')
  {}

  lemma ManageKeepsSpace(s: State, i: nat, op: ManageOp)
    requires i < |s.lanes| && EnabledManage(s, i, op)
    requires Basic(s) && SpaceOwed(s) && SpaceFullRing(s)
    ensures var s' := ApplyManage(s, i, op); SpaceOwed(s') && SpaceFullRing(s')
  {}

  lemma ManageKeepsCounts(s: State, i: nat, op: ManageOp)
    requires i < |s.lanes| && EnabledManage(s, i, op)
    requires Basic(s) && Control(s) && Counts(s)
    ensures Counts(ApplyManage(s, i, op))
  {
    CountsAfter(s, ApplyManage(s, i, op), i);
  }

  lemma ManageKeepsInv(s: State, i: nat, op: ManageOp)
    requires i < |s.lanes| && EnabledManage(s, i, op) && Inv(s)
    ensures Inv(ApplyManage(s, i, op))
  {
    ManageKeepsRings(s, i, op);
    ManageKeepsLife(s, i, op);
    ManageKeepsControl(s, i, op);
    ManageKeepsSlots(s, i, op);
    ManageKeepsPlain(s, i, op);
    ManageKeepsIndex(s, i, op);
    ManageKeepsToken(s, i, op);
    ManageKeepsData(s, i, op);
    ManageKeepsPages(s, i, op);
    ManageKeepsWakeup(s, i, op);
    ManageKeepsSpace(s, i, op);
    ManageKeepsCounts(s, i, op);
  }

  // ---- the receiver marks and requeues a lane

  lemma RequeueKeepsRings(s: State, i: nat, op: RequeueOp)
    requires i < |s.lanes| && EnabledRequeue(s, i, op)
    requires Basic(s) && Control(s)
    ensures Basic(ApplyRequeue(s, i, op))
  {}

  lemma RequeueKeepsLife(s: State, i: nat, op: RequeueOp)
    requires i < |s.lanes| && EnabledRequeue(s, i, op)
    requires Basic(s) && Life(s) && Control(s) && Counts(s)
    ensures Life(ApplyRequeue(s, i, op))
  {}

  lemma RequeueKeepsControl(s: State, i: nat, op: RequeueOp)
    requires i < |s.lanes| && EnabledRequeue(s, i, op)
    requires Basic(s) && Life(s) && Control(s)
    requires Basic(ApplyRequeue(s, i, op))
    ensures Control(ApplyRequeue(s, i, op))
  {}

  lemma RequeueKeepsSlots(s: State, i: nat, op: RequeueOp)
    requires i < |s.lanes| && EnabledRequeue(s, i, op)
    requires Distinct(s)
    ensures Distinct(ApplyRequeue(s, i, op))
  {
    hide Distinct;
    DistinctKept(s, ApplyRequeue(s, i, op));
  }

  lemma RequeueKeepsPlain(s: State, i: nat, op: RequeueOp)
    requires i < |s.lanes| && EnabledRequeue(s, i, op)
    requires Basic(s) && PlainSends(s)
    ensures PlainSends(ApplyRequeue(s, i, op))
  {}

  lemma RequeueKeepsIndex(s: State, i: nat, op: RequeueOp)
    requires i < |s.lanes| && EnabledRequeue(s, i, op)
    requires Basic(s) && Index(s)
    ensures Index(ApplyRequeue(s, i, op))
  {}

  lemma RequeueKeepsToken(s: State, i: nat, op: RequeueOp)
    requires i < |s.lanes| && EnabledRequeue(s, i, op)
    requires Basic(s) && Distinct(s) && Index(s) && Control(s) && Token(s)
    ensures Token(ApplyRequeue(s, i, op))
  {}

  lemma RequeueKeepsData(s: State, i: nat, op: RequeueOp)
    requires i < |s.lanes| && EnabledRequeue(s, i, op)
    requires Basic(s) && Control(s) && Data(s) && Credit(s) && ScanProgress(s)
    ensures var s' := ApplyRequeue(s, i, op); Data(s') && Credit(s') && ScanProgress(s')
  {}

  lemma RequeueKeepsPages(s: State, i: nat, op: RequeueOp)
    requires i < |s.lanes| && EnabledRequeue(s, i, op)
    requires Basic(s) && Index(s) && Control(s) && Pages(s)
    ensures Pages(ApplyRequeue(s, i, op))
  {}

  lemma RequeueKeepsWakeup(s: State, i: nat, op: RequeueOp)
    requires i < |s.lanes| && EnabledRequeue(s, i, op)
    requires Basic(s) && Index(s) && Control(s) && Owed(s) && Pages(s) && Wakeup(s)
    ensures var s' := ApplyRequeue(s, i, op); Wakeup(s') && Owed(s')
  {}

  lemma RequeueKeepsSpace(s: State, i: nat, op: RequeueOp)
    requires i < |s.lanes| && EnabledRequeue(s, i, op)
    requires Basic(s) && SpaceOwed(s) && SpaceFullRing(s)
    ensures var s' := ApplyRequeue(s, i, op); SpaceOwed(s') && SpaceFullRing(s')
  {}

  lemma RequeueKeepsCounts(s: State, i: nat, op: RequeueOp)
    requires i < |s.lanes| && EnabledRequeue(s, i, op)
    requires Basic(s) && Control(s) && Counts(s)
    ensures Counts(ApplyRequeue(s, i, op))
  {
    CountsAfter(s, ApplyRequeue(s, i, op), i);
  }

  lemma RequeueKeepsInv(s: State, i: nat, op: RequeueOp)
    requires i < |s.lanes| && EnabledRequeue(s, i, op) && Inv(s)
    ensures Inv(ApplyRequeue(s, i, op))
  {
    RequeueKeepsRings(s, i, op);
    RequeueKeepsLife(s, i, op);
    RequeueKeepsControl(s, i, op);
    RequeueKeepsSlots(s, i, op);
    RequeueKeepsPlain(s, i, op);
    RequeueKeepsIndex(s, i, op);
    RequeueKeepsToken(s, i, op);
    RequeueKeepsData(s, i, op);
    RequeueKeepsPages(s, i, op);
    RequeueKeepsWakeup(s, i, op);
    RequeueKeepsSpace(s, i, op);
    RequeueKeepsCounts(s, i, op);
  }

  // ---- the receiver scans and waits

  lemma ReceiverKeepsRings(s: State, op: WaitOp)
    requires EnabledReceiver(s, op)
    requires Basic(s) && Life(s) && Control(s) && Counts(s)
    ensures var s' := ApplyReceiver(s, op); Basic(s') && Life(s')
  {}

  lemma ReceiverKeepsControl(s: State, op: WaitOp)
    requires EnabledReceiver(s, op)
    requires Basic(s) && Life(s) && Control(s)
    requires Basic(ApplyReceiver(s, op))
    ensures Control(ApplyReceiver(s, op))
  {}

  lemma ReceiverKeepsSlots(s: State, op: WaitOp)
    requires EnabledReceiver(s, op)
    requires Distinct(s)
    ensures Distinct(ApplyReceiver(s, op))
  {
    hide Distinct;
    DistinctKept(s, ApplyReceiver(s, op));
  }

  lemma ReceiverKeepsPlain(s: State, op: WaitOp)
    requires EnabledReceiver(s, op)
    requires Basic(s) && PlainSends(s)
    ensures PlainSends(ApplyReceiver(s, op))
  {}

  lemma ReceiverKeepsIndex(s: State, op: WaitOp)
    requires EnabledReceiver(s, op)
    requires Basic(s) && Distinct(s) && Index(s)
    ensures Index(ApplyReceiver(s, op))
  {}

  lemma ReceiverKeepsToken(s: State, op: WaitOp)
    requires EnabledReceiver(s, op)
    requires Basic(s) && Distinct(s) && Index(s) && Control(s) && Token(s) && Data(s) && Credit(s) && ScanProgress(s)
    ensures var s' := ApplyReceiver(s, op); Token(s') && Data(s') && Credit(s') && ScanProgress(s')
  {}

  lemma ReceiverKeepsPages(s: State, op: WaitOp)
    requires EnabledReceiver(s, op)
    requires Basic(s) && Index(s) && Control(s) && Owed(s) && Pages(s) && Wakeup(s)
    ensures var s' := ApplyReceiver(s, op); Pages(s') && Owed(s')
  {}

  lemma ReceiverKeepsWakeup(s: State, op: WaitOp)
    requires EnabledReceiver(s, op)
    requires Basic(s) && Index(s) && Control(s) && Owed(s) && Pages(s) && Wakeup(s)
    ensures Wakeup(ApplyReceiver(s, op))
  {}

  lemma ReceiverKeepsSpace(s: State, op: WaitOp)
    requires EnabledReceiver(s, op)
    requires Basic(s) && SpaceOwed(s) && SpaceFullRing(s)
    ensures var s' := ApplyReceiver(s, op); SpaceOwed(s') && SpaceFullRing(s')
  {}

  lemma ReceiverKeepsCounts(s: State, op: WaitOp)
    requires EnabledReceiver(s, op)
    requires Counts(s)
    ensures Counts(ApplyReceiver(s, op))
  {
    CountsKept(s, ApplyReceiver(s, op));
  }

  lemma ReceiverKeepsInv(s: State, op: WaitOp)
    requires EnabledReceiver(s, op) && Inv(s)
    ensures Inv(ApplyReceiver(s, op))
  {
    ReceiverKeepsRings(s, op);
    ReceiverKeepsControl(s, op);
    ReceiverKeepsSlots(s, op);
    ReceiverKeepsPlain(s, op);
    ReceiverKeepsIndex(s, op);
    ReceiverKeepsToken(s, op);
    ReceiverKeepsPages(s, op);
    ReceiverKeepsWakeup(s, op);
    ReceiverKeepsSpace(s, op);
    ReceiverKeepsCounts(s, op);
  }

  // ---- registration and runs

  lemma RegisterKeepsInv(s: State, slot: Slot, cap: nat)
    requires Enabled(s, Register(slot, cap)) && Inv(s)
    ensures Inv(Apply(s, Register(slot, cap)))
  {
    RegisterKeepsLanes(s, slot, cap);
    RegisterKeepsIndex(s, slot, cap);
    RegisterKeepsFlow(s, slot, cap);
    assert Apply(s, Register(slot, cap)).lanes[..|s.lanes|] == s.lanes;
  }

  lemma RegisterKeepsLanes(s: State, slot: Slot, cap: nat)
    requires Enabled(s, Register(slot, cap))
    requires Basic(s) && Life(s) && Distinct(s) && Index(s) && Control(s) && Owed(s) && PlainSends(s)
    ensures var s' := Apply(s, Register(slot, cap)); Basic(s') && Life(s') && Control(s') && Owed(s')
  {}

  lemma RegisterKeepsIndex(s: State, slot: Slot, cap: nat)
    requires Enabled(s, Register(slot, cap))
    requires Basic(s) && Life(s) && Distinct(s) && Index(s) && Control(s) && Owed(s) && PlainSends(s)
    ensures var s' := Apply(s, Register(slot, cap)); Distinct(s') && Index(s') && PlainSends(s')
  {}

  lemma RegisterKeepsFlow(s: State, slot: Slot, cap: nat)
    requires Enabled(s, Register(slot, cap))
    requires Basic(s) && Token(s) && Data(s) && Credit(s) && Pages(s) && Wakeup(s) && SpaceOwed(s)
          && SpaceFullRing(s) && ScanProgress(s)
    ensures var s' := Apply(s, Register(slot, cap));
            Token(s') && Data(s') && Credit(s') && Pages(s') && Wakeup(s') && SpaceOwed(s')
            && SpaceFullRing(s') && ScanProgress(s')
  {}
}
