/** The ring with its two threads. Each access to a shared cursor is one step, and a
    slot is written or read between two steps of its thread, so that the other
    thread may run in between. The cursors wrap; the counts beside them do not. */
module SpscThreads {
  import opened CursorArithmetic
  import opened SpscRing

  /** `Writing`: the producer is writing the slot at its cursor. `Flushing`: it has
      looked at the head and not yet stored the tail. */
  datatype ProducerPc<T> = Idle | Full(value: T) | Writing(value: T) | Flushing(count: nat, wasEmpty: bool)

  /** `Reading`: the consumer is reading the slot at its front cursor. */
  datatype ConsumerPc = Resting | Reading

  datatype State<T> = State(
    buf: seq<Cell<T>>,
    head: nat,
    tail: nat,
    cursor: nat,
    cachedHead: nat,
    front: nat,
    cachedTail: nat,
    producer: ProducerPc<T>,
    consumer: ConsumerPc,
    // every value accepted and returned, and the shared and cached cursors as counts
    pushed: seq<T>,
    popped: seq<T>,
    freed: nat,
    sent: nat,
    known: nat,
    seen: nat)
  {
    function Cap(): nat { |buf| }
  }

  ghost predicate Shape<T>(s: State<T>) { 0 < s.Cap() <= Pow2(62) && WORD % s.Cap() == 0 }

  ghost predicate Words<T>(s: State<T>) {
    && s.head < WORD && s.tail < WORD && s.cursor < WORD
    && s.cachedHead < WORD && s.front < WORD && s.cachedTail < WORD
  }

  ghost predicate Init<T>(s: State<T>) {
    && Shape(s) && s == State(s.buf, 0, 0, 0, 0, 0, 0, Idle, Resting, [], [], 0, 0, 0, 0)
    && forall j :: 0 <= j < |s.buf| ==> s.buf[j] == Uninit
  }

  datatype Step<T> =
    | PushFits(value: T)
    | PushLooksFull(value: T)
    | LoadHeadFits
    | LoadHeadFull
    | WriteSlot
    | StoreTail
    | FlushLooks
    | FlushStores
    | LoadTail
    | BeginRead
    | ReadSlot
    | StoreHead

  ghost predicate Enabled<T>(s: State<T>, step: Step<T>) {
    && Shape(s) && Words(s)
    && match step
       case PushFits(_) => s.producer.Idle? && WrappingSub(s.cursor, s.cachedHead) < s.Cap()
       case PushLooksFull(_) => s.producer.Idle? && WrappingSub(s.cursor, s.cachedHead) >= s.Cap()
       case LoadHeadFits => s.producer.Full? && WrappingSub(s.cursor, s.head) < s.Cap()
       case LoadHeadFull => s.producer.Full? && WrappingSub(s.cursor, s.head) >= s.Cap()
       case WriteSlot => s.producer.Writing?
       case StoreTail => s.producer.Idle?
       case FlushLooks => s.producer.Idle? && s.cursor != s.tail
       case FlushStores => s.producer.Flushing?
       case LoadTail => s.consumer.Resting?
       case BeginRead => s.consumer.Resting? && s.front != s.cachedTail
       case ReadSlot => s.consumer.Reading? && s.buf[Index(s.front, s.Cap())].Init?
       case StoreHead => s.consumer.Resting?
  }

  ghost function Apply<T>(s: State<T>, step: Step<T>): State<T>
    requires Enabled(s, step)
  {
    match step
    case PushFits(v) => s.(producer := Writing(v))
    case PushLooksFull(v) => s.(producer := Full(v))
    case LoadHeadFits => s.(cachedHead := s.head, known := s.freed, producer := Writing(s.producer.value))
    case LoadHeadFull => s.(cachedHead := s.head, known := s.freed, producer := Idle)
    case WriteSlot =>
      s.(buf := s.buf[Index(s.cursor, s.Cap()) := Cell.Init(s.producer.value)],
         cursor := Wrap(s.cursor + 1), pushed := s.pushed + [s.producer.value], producer := Idle)
    case StoreTail => s.(tail := s.cursor, sent := |s.pushed|)
    case FlushLooks =>
      s.(cachedHead := s.head, known := s.freed,
         producer := Flushing(WrappingSub(s.cursor, s.tail), s.tail == s.head))
    case FlushStores => s.(tail := s.cursor, sent := |s.pushed|, producer := Idle)
    case LoadTail => s.(cachedTail := s.tail, seen := s.sent)
    case BeginRead => s.(consumer := Reading)
    case ReadSlot =>
      var slot := Index(s.front, s.Cap());
      s.(buf := s.buf[slot := Uninit], front := Wrap(s.front + 1),
         popped := s.popped + [s.buf[slot].value], consumer := Resting)
    case StoreHead => s.(head := s.front, freed := |s.popped|)
  }

  ghost predicate Next<T(!new)>(s: State<T>, t: State<T>) {
    exists step: Step<T> :: Enabled(s, step) && t == Apply(s, step)
  }

  ghost predicate IsRun<T(!new)>(run: seq<State<T>>) {
    && run != [] && Init(run[0])
    && forall i :: 0 <= i < |run| - 1 ==> Next(run[i], run[i + 1])
  }

  // The invariant

  /** The cursor chain: published and private cursors never pass each other. */
  ghost predicate Order<T>(s: State<T>) {
    && s.known <= s.freed <= |s.popped| <= s.seen <= s.sent <= |s.pushed| <= s.known + s.Cap()
    && (s.producer.Writing? ==> |s.pushed| < s.known + s.Cap())
    && (s.consumer.Reading? ==> |s.popped| < s.seen)
  }

  /** Every cursor is its count modulo the word size. */
  ghost predicate Cursors<T>(s: State<T>) {
    && s.cachedHead == Wrap(s.known) && s.head == Wrap(s.freed) && s.front == Wrap(|s.popped|)
    && s.cachedTail == Wrap(s.seen) && s.tail == Wrap(s.sent) && s.cursor == Wrap(|s.pushed|)
  }

  /** Exactly the unread values occupy slots, and what came out is what went in. */
  ghost predicate Contents<T>(s: State<T>) {
    s.popped <= s.pushed && Holds(s.buf, s.pushed, |s.popped|)
  }

  ghost predicate Inv<T>(s: State<T>) { Shape(s) && Order(s) && Cursors(s) && Contents(s) }

  lemma Distances<T>(s: State<T>)
    requires Shape(s) && Order(s) && Cursors(s)
    ensures Words(s)
    ensures WrappingSub(s.cursor, s.cachedHead) == |s.pushed| - s.known
    ensures WrappingSub(s.cursor, s.head) == |s.pushed| - s.freed
    ensures WrappingSub(s.cursor, s.tail) == |s.pushed| - s.sent
    ensures (s.front == s.cachedTail) <==> |s.popped| == s.seen
    ensures (s.tail == s.head) <==> s.sent == s.freed
    ensures (s.cursor == s.tail) <==> |s.pushed| == s.sent
  {
    hide Wrap, WrappingSub;
    Pow2Of62();
    WrapSub(|s.pushed|, s.known);
    WrapSub(|s.pushed|, s.freed);
    WrapSub(|s.pushed|, s.sent);
    WrapEqual(s.seen, |s.popped|);
    WrapEqual(s.sent, s.freed);
    WrapEqual(|s.pushed|, s.sent);
  }

  lemma StepKeepsOrder<T>(s: State<T>, step: Step<T>)
    requires Inv(s) && Enabled(s, step)
    ensures Order(Apply(s, step)) && Shape(Apply(s, step))
  {
    hide Wrap, WrappingSub, Contents;
    Distances(s);
  }

  lemma StepKeepsCursors<T>(s: State<T>, step: Step<T>)
    requires Inv(s) && Enabled(s, step)
    ensures Cursors(Apply(s, step))
  {
    hide Wrap, WrappingSub, Contents;
    WrapAdd(|s.pushed|, 1);
    WrapAdd(|s.popped|, 1);
  }

  lemma StepKeepsContents<T>(s: State<T>, step: Step<T>)
    requires Inv(s) && Enabled(s, step)
    ensures Contents(Apply(s, step))
  {
    hide Wrap, WrappingSub, Holds, Index;
    Distances(s);
    WrapIndex(|s.pushed|, s.Cap());
    WrapIndex(|s.popped|, s.Cap());
    if step.WriteSlot? {
      HoldsOneMore(s.buf, s.pushed, |s.popped|, s.producer.value);
    } else if step.ReadSlot? {
      HoldsNext(s.buf, s.pushed, |s.popped|);
    }
  }

  lemma StepKeepsInv<T>(s: State<T>, step: Step<T>)
    requires Inv(s) && Enabled(s, step)
    ensures Inv(Apply(s, step))
  {
    hide Order, Cursors, Contents, Shape, Apply, Enabled;
    StepKeepsOrder(s, step);
    StepKeepsCursors(s, step);
    StepKeepsContents(s, step);
  }

  lemma {:induction false} RunInv<T(!new)>(run: seq<State<T>>, k: nat)
    requires IsRun(run) && k < |run|
    ensures Inv(run[k])
    decreases k
  {
    hide Apply, Enabled;
    if k > 0 {
      RunInv(run, k - 1);
      assert Next(run[k - 1], run[k - 1 + 1]);
      var step: Step<T> :| Enabled(run[k - 1], step) && run[k] == Apply(run[k - 1], step);
      StepKeepsInv(run[k - 1], step);
    }
  }

  /** What comes out is a prefix of what went in, in every interleaving. */
  lemma PoppedIsPrefix<T(!new)>(run: seq<State<T>>, k: nat)
    requires IsRun(run) && k < |run|
    ensures run[k].popped <= run[k].pushed
  {
    RunInv(run, k);
  }

  /** The slot being written holds no unread value and is not the slot being read. */
  lemma WrittenSlotIsFree<T(!new)>(run: seq<State<T>>, k: nat)
    requires IsRun(run) && k < |run| && run[k].producer.Writing?
    ensures var s := run[k];
      && 0 < s.Cap() && s.buf[Index(s.cursor, s.Cap())] == Uninit
      && (s.consumer.Reading? ==> Index(s.cursor, s.Cap()) != Index(s.front, s.Cap()))
  {
    hide Wrap, WrappingSub, Index;
    var s := run[k];
    RunInv(run, k);
    WrapIndex(|s.pushed|, s.Cap());
    WrapIndex(|s.popped|, s.Cap());
    HoldsOneMore(s.buf, s.pushed, |s.popped|, s.producer.value);
    if s.consumer.Reading? {
      IndexDistinct(|s.popped|, |s.pushed|, s.Cap());
    }
  }

  /** The slot being read is initialised, with the oldest value not yet returned, so
      that the read is always enabled. */
  lemma ReadSlotIsReady<T(!new)>(run: seq<State<T>>, k: nat)
    requires IsRun(run) && k < |run| && run[k].consumer.Reading?
    ensures Enabled(run[k], ReadSlot) && |run[k].popped| < |run[k].pushed|
    ensures run[k].buf[Index(run[k].front, run[k].Cap())] == Cell.Init(run[k].pushed[|run[k].popped|])
  {
    hide Wrap, WrappingSub, Index;
    var s := run[k];
    RunInv(run, k);
    Distances(s);
    WrapIndex(|s.popped|, s.Cap());
    HoldsNext(s.buf, s.pushed, |s.popped|);
  }

  /** A push is refused exactly when, at its load of the head, every slot holds a
      value the consumer has not released. */
  lemma RefusedMeansFull<T(!new)>(run: seq<State<T>>, k: nat)
    requires IsRun(run) && k < |run| && run[k].producer.Full?
    ensures Enabled(run[k], LoadHeadFull) <==> |run[k].pushed| == run[k].freed + run[k].Cap()
    ensures Enabled(run[k], LoadHeadFits) <==> |run[k].pushed| < run[k].freed + run[k].Cap()
  {
    RunInv(run, k);
    Distances(run[k]);
  }

  /** A flush that asks for a hint reports what becomes visible, and whether all that
      was published had been released at its load of the head; what the consumer
      does before the tail is stored does not count. */
  lemma FlushReportsItsLoad<T(!new)>(run: seq<State<T>>, k: nat)
    requires IsRun(run) && k < |run| && Enabled(run[k], FlushLooks)
    ensures run[k].sent <= |run[k].pushed|
    ensures Apply(run[k], FlushLooks).producer ==
            Flushing(|run[k].pushed| - run[k].sent, run[k].sent == run[k].freed)
  {
    RunInv(run, k);
    Distances(run[k]);
  }
}
