/** Cursor arithmetic of the single-producer single-consumer ring: cursors count
    modulo the word size, slots modulo the capacity. */
module CursorArithmetic {

  const WORD: nat := 0x1_0000_0000_0000_0000

  function Pow2(k: nat): (p: nat)
    ensures 0 < p
  {
    if k == 0 then 1 else 2 * Pow2(k - 1)
  }

  /** `usize` counters wrap. */
  function Wrap(n: nat): (r: nat)
    ensures r < WORD
  {
    n % WORD
  }

  function WrappingSub(a: nat, b: nat): nat
    requires a < WORD && b < WORD
  {
    (a + WORD - b) % WORD
  }

  /** The slot of a cursor. The capacity is a power of two, so masking is this
      remainder. */
  function Index(n: nat, cap: nat): (r: nat)
    requires 0 < cap
    ensures r < cap
  {
    n % cap
  }

  lemma WrapSub(a: nat, b: nat)
    requires b <= a < b + WORD
    ensures WrappingSub(Wrap(a), Wrap(b)) == a - b
  {
  }

  lemma ZeroWraps()
    ensures Wrap(0) == 0
  {
  }

  lemma WrapAdd(a: nat, n: nat)
    ensures Wrap(Wrap(a) + n) == Wrap(a + n)
  {
  }

  lemma WrapEqual(a: nat, b: nat)
    requires b <= a < b + WORD
    ensures Wrap(a) == Wrap(b) <==> a == b
  {
  }

  lemma MulMod(q: nat, cap: nat, r: nat)
    requires 0 < cap
    ensures (q * cap + r) % cap == r % cap
    decreases q
  {
    if q > 0 {
      MulMod(q - 1, cap, r);
      assert q * cap + r == (q - 1) * cap + r + cap;
      ModStep((q - 1) * cap + r, cap);
    }
  }

  lemma ModStep(n: nat, cap: nat)
    requires 0 < cap
    ensures (n + cap) % cap == n % cap
  {
    var q, r := n / cap, n % cap;
    assert n + cap == (q + 1) * cap + r;
    ModUnique(n + cap, cap, q + 1, r);
  }

  /** A non-zero multiple of the capacity is at least the capacity in size. */
  lemma MultipleSize(d: int, cap: int)
    requires 0 < cap
    ensures 1 <= d ==> cap <= d * cap
    ensures d <= -1 ==> d * cap <= -cap
  {
    assert d * cap == (d - 1) * cap + cap && d * cap == (d + 1) * cap - cap;
    if 1 <= d {
      assert 0 <= (d - 1) * cap;
    } else if d <= -1 {
      assert (d + 1) * cap <= 0;
    }
  }

  lemma ModUnique(n: nat, cap: nat, q: nat, r: nat)
    requires r < cap && n == q * cap + r
    ensures n % cap == r
  {
    var p, s := n / cap, n % cap;
    assert n == p * cap + s;
    assert (p - q) * cap == p * cap - q * cap;
    MultipleSize(p - q, cap);
  }

  /** Masking a wrapped cursor finds the slot of the unwrapped count. */
  lemma WrapIndex(n: nat, cap: nat)
    requires 0 < cap && WORD % cap == 0
    ensures Index(Wrap(n), cap) == Index(n, cap)
  {
    var q, c := n / WORD, WORD / cap;
    assert WORD == c * cap;
    assert n == q * WORD + Wrap(n);
    assert q * WORD == (q * c) * cap;
    MulMod(q * c, cap, Wrap(n));
  }

  /** Counts less than a capacity apart have different slots. */
  lemma IndexDistinct(i: nat, j: nat, cap: nat)
    requires i < j < i + cap
    ensures Index(i, cap) != Index(j, cap)
  {
    var p, q := i / cap, j / cap;
    assert i == p * cap + i % cap && j == q * cap + j % cap;
    if Index(i, cap) == Index(j, cap) {
      assert (q - p) * cap == q * cap - p * cap;
      MultipleSize(q - p, cap);
    }
  }

  /** Slots of consecutive counts run to the end of the buffer and wrap once. */
  lemma IndexRun(h: nat, i: nat, cap: nat)
    requires i < cap
    ensures Index(h + i, cap) == if Index(h, cap) + i < cap then Index(h, cap) + i else Index(h, cap) + i - cap
  {
    var q, s := h / cap, h % cap;
    if s + i < cap {
      ModUnique(h + i, cap, q, s + i);
    } else {
      assert h + i == (q + 1) * cap + (s + i - cap);
      ModUnique(h + i, cap, q + 1, s + i - cap);
    }
  }

  lemma Pow2Divides(k: nat, n: nat)
    requires k <= n
    ensures Pow2(n) % Pow2(k) == 0
    decreases n
  {
    if k == n {
      ModUnique(Pow2(n), Pow2(k), 1, 0);
    } else {
      Pow2Divides(k, n - 1);
      var q := Pow2(n - 1) / Pow2(k);
      assert Pow2(n - 1) == q * Pow2(k);
      assert Pow2(n) == (2 * q) * Pow2(k);
      ModUnique(Pow2(n), Pow2(k), 2 * q, 0);
    }
  }

  lemma WordIsPow2()
    ensures Pow2(64) == WORD
  {
    assert Pow2(8) == 0x100;
    assert Pow2(16) == 0x1_0000;
    assert Pow2(24) == 0x100_0000;
    assert Pow2(32) == 0x1_0000_0000;
    assert Pow2(40) == 0x100_0000_0000;
    assert Pow2(48) == 0x1_0000_0000_0000;
    assert Pow2(56) == 0x100_0000_0000_0000;
  }
}

/** The ring itself, with the producer's and the consumer's private cursors. Ghost
    counters are the cursors without wrap-around; `pushed` and `popped` are every
    value accepted and returned so far. */
module SpscRing {
  import opened Basics
  import opened CursorArithmetic

  datatype Cell<T> = Uninit | Init(value: T)

  lemma {:induction false} Pow2Grows(k: nat, n: nat)
    requires k <= n
    ensures Pow2(k) <= Pow2(n)
    decreases n
  {
    if k < n {
      Pow2Grows(k, n - 1);
    }
  }

  lemma Pow2Of62()
    ensures Pow2(62) * 4 == WORD
  {
    WordIsPow2();
    assert Pow2(64) == 2 * Pow2(63) == 4 * Pow2(62);
  }

  /** Rounds a capacity up to a power of two; nothing where construction panics. */
  method RoundedCapacity(capacity: nat) returns (cap: Option<nat>, ghost k: nat)
    ensures cap.Some? <==> 0 < capacity <= Pow2(62)
    ensures cap.Some? ==> k <= 62 && cap.value == Pow2(k) && capacity <= cap.value
    ensures cap.Some? ==> forall j :: 0 <= j && capacity <= Pow2(j) ==> cap.value <= Pow2(j)
  {
    Pow2Of62();
    k := 0;
    if capacity == 0 || WORD / 2 - 1 < capacity {
      return None, 0;
    }
    var p := 1;
    while p < capacity
      invariant p == Pow2(k) && k <= 62 && (0 < k ==> Pow2(k - 1) < capacity)
      decreases 62 - k
    {
      if p > WORD / 2 - 1 - p {
        Pow2Grows(k, 62);
        return None, 0;
      }
      k := k + 1;
      p := 2 * p;
    }
    forall j | 0 <= j && capacity <= Pow2(j) ensures p <= Pow2(j) {
      if j < k {
        Pow2Grows(j, k - 1);
      } else {
        Pow2Grows(k, j);
      }
    }
    Pow2Grows(k, 62);
    return Some(p), k;
  }

  /** Exactly the values from `n` on occupy slots, each in its own. */
  ghost predicate Holds<T>(b: seq<Cell<T>>, pushed: seq<T>, n: nat) {
    && 0 < |b| && n <= |pushed| <= n + |b|
    && (forall i :: n <= i < |pushed| ==> b[Index(i, |b|)] == Init(pushed[i]))
    && (forall i :: |pushed| <= i < n + |b| ==> b[Index(i, |b|)] == Uninit)
  }

  /** A run of `count` values from `n`: where its first part starts and how long
      that part is before it wraps to the start of the buffer. */
  function RunStart(n: nat, cap: nat): nat
    requires 0 < cap
  {
    Index(n, cap)
  }

  function RunFirst(n: nat, cap: nat, count: nat): nat
    requires 0 < cap
  {
    Min(count, cap - Index(n, cap))
  }

  lemma RunAt(n: nat, cap: nat, count: nat, i: nat)
    requires 0 < cap && count <= cap && n <= i < n + cap
    ensures var start, first, d, slot := RunStart(n, cap), RunFirst(n, cap, count), i - n, Index(i, cap);
      && (d < count ==> slot == if d < first then start + d else d - first)
      && (count <= d ==> !(start <= slot < start + first) && count - first <= slot)
  {
    IndexRun(n, i - n, cap);
  }

  lemma RunValues<T>(b: seq<Cell<T>>, pushed: seq<T>, n: nat, count: nat)
    requires Holds(b, pushed, n) && n + count <= |pushed|
    ensures var start, first := RunStart(n, |b|), RunFirst(n, |b|, count);
      && start + first <= |b| && first <= count && count - first <= start
      && (forall j :: start <= j < start + first ==> b[j] == Init(pushed[n + (j - start)]))
      && (forall j :: 0 <= j < count - first ==> b[j] == Init(pushed[n + first + j]))
  {
    var start, first := RunStart(n, |b|), RunFirst(n, |b|, count);
    forall j | start <= j < start + first ensures b[j] == Init(pushed[n + (j - start)]) {
      RunAt(n, |b|, count, n + (j - start));
    }
    forall j | 0 <= j < count - first ensures b[j] == Init(pushed[n + first + j]) {
      RunAt(n, |b|, count, n + first + j);
    }
  }

  lemma RunTaken<T>(b: seq<Cell<T>>, c: seq<Cell<T>>, pushed: seq<T>, n: nat, count: nat)
    requires Holds(b, pushed, n) && n + count <= |pushed| && |c| == |b|
    requires var start, first := RunStart(n, |b|), RunFirst(n, |b|, count);
      forall j :: 0 <= j < |b| ==>
        c[j] == if start <= j < start + first || j < count - first then Uninit else b[j]
    ensures Holds(c, pushed, n + count)
  {
    forall i | n + count <= i < n + count + |b|
      ensures c[Index(i, |b|)] == if i < |pushed| then Init(pushed[i]) else Uninit
    {
      if i < n + |b| {
        RunAt(n, |b|, count, i);
      } else {
        ModStep(i - |b|, |b|);
        RunAt(n, |b|, count, i - |b|);
      }
    }
  }

  class Ring<T> {
    const buf: array<Cell<T>>
    const cap: nat
    // shared cursors
    var head: nat
    var tail: nat
    // the producer's cursors
    var cursor: nat
    var cachedHead: nat
    // the consumer's cursors
    var front: nat
    var cachedTail: nat
    var producerDropped: bool
    var consumerDropped: bool

    ghost var pushed: seq<T>
    ghost var popped: seq<T>
    ghost var known: nat
    ghost var freed: nat
    ghost var seen: nat
    ghost var sent: nat

    ghost predicate Shape() {
      0 < cap == buf.Length && cap <= Pow2(62) && WORD % cap == 0
    }

    /** Published and private cursors never pass each other. */
    ghost predicate Order()
      reads this
    {
      known <= freed <= |popped| <= seen <= sent <= |pushed| <= known + cap
    }

    ghost predicate Cursors()
      reads this
    {
      && cachedHead == Wrap(known) && head == Wrap(freed) && front == Wrap(|popped|)
      && cachedTail == Wrap(seen) && tail == Wrap(sent) && cursor == Wrap(|pushed|)
    }

    ghost predicate Slots()
      requires Shape()
      reads this, buf
    {
      |popped| <= |pushed| <= |popped| + cap && Holds(buf[..], pushed, |popped|)
    }

    ghost predicate Valid()
      reads this, buf
    {
      Shape() && Order() && Cursors() && Slots() && popped <= pushed
    }

    constructor (cap: nat, ghost k: nat)
      requires k <= 62 && cap == Pow2(k)
      ensures Valid() && this.cap == cap && pushed == [] && fresh(buf) && !producerDropped && !consumerDropped
    {
      this.cap := cap;
      buf := new Cell<T>[cap](_ => Uninit);
      head, tail, cursor, cachedHead, front, cachedTail := 0, 0, 0, 0, 0, 0;
      producerDropped, consumerDropped := false, false;
      pushed, popped, known, freed, seen, sent := [], [], 0, 0, 0, 0;
      new;
      hide Holds, Pow2, Wrap;
      HoldsNone(buf[..], pushed);
      ZeroWraps();
      Pow2Grows(k, 62);
      WordIsPow2();
      Pow2Divides(k, 64);
    }

    lemma Distances()
      requires Valid()
      ensures WrappingSub(cursor, cachedHead) == |pushed| - known
      ensures WrappingSub(cursor, head) == |pushed| - freed
      ensures WrappingSub(cachedTail, front) == seen - |popped|
      ensures WrappingSub(tail, cachedTail) == sent - seen
      ensures (front == cachedTail) <==> |popped| == seen
    {
      Pow2Of62();
      WrapSub(|pushed|, known);
      WrapSub(|pushed|, freed);
      WrapSub(seen, |popped|);
      WrapSub(sent, seen);
      WrapEqual(seen, |popped|);
    }

    /** Accepts a value unless the published head is a capacity behind. A free slot is
        never one the consumer may still read. */
    method Push(value: T) returns (ok: bool)
      requires Valid()
      modifies this`cursor, this`cachedHead, this`pushed, this`known, buf
      ensures Valid()
      ensures ok <==> old(|pushed|) < freed + cap
      ensures pushed == if ok then old(pushed) + [value] else old(pushed)
    {
      Distances();
      if WrappingSub(cursor, cachedHead) >= cap {
        cachedHead, known := head, freed;
        if WrappingSub(cursor, cachedHead) >= cap {
          return false;
        }
      }
      WriteSlot(value);
      return true;
    }

    method WriteSlot(value: T)
      requires Valid() && |pushed| < known + cap
      modifies this`cursor, this`pushed, buf
      ensures Valid() && pushed == old(pushed) + [value]
    {
      hide Holds, Wrap;
      var slot := Index(cursor, cap);
      WrapIndex(|pushed|, cap);
      WrapAdd(|pushed|, 1);
      HoldsOneMore(buf[..], pushed, |popped|, value);
      ghost var was := buf[..];
      buf[slot] := Init(value);
      assert buf[..] == was[slot := Init(value)];
      cursor := Wrap(cursor + 1);
      pushed := pushed + [value];
    }

    /** Publishes everything pushed. */
    method Flush()
      requires Valid()
      modifies this`tail, this`sent
      ensures Valid() && sent == |pushed|
    {
      tail, sent := cursor, |pushed|;
    }

    /** Publishes and reports how many values became visible, or nothing. */
    method FlushAndCount() returns (count: nat, wasEmpty: bool)
      requires Valid()
      modifies this`tail, this`sent, this`cachedHead, this`known
      ensures Valid() && sent == |pushed| && count == |pushed| - old(sent)
      ensures wasEmpty == (old(sent) == freed && 0 < count)
    {
      hide Holds, Wrap, WrappingSub;
      FlushDistances();
      if cursor == tail {
        return 0, false;
      }
      count := WrappingSub(cursor, tail);
      cachedHead, known := head, freed;
      wasEmpty := tail == cachedHead;
      tail, sent := cursor, |pushed|;
    }

    lemma FlushDistances()
      requires Shape() && Order() && Cursors()
      ensures cursor < WORD && tail < WORD && WrappingSub(cursor, tail) == |pushed| - sent
      ensures (cursor == tail) <==> |pushed| == sent
      ensures (tail == head) <==> sent == freed
    {
      Pow2Of62();
      WrapEqual(|pushed|, sent);
      WrapSub(|pushed|, sent);
      WrapEqual(sent, freed);
    }

    /** Loads the published tail. Returns how many values became visible. */
    method Prefetch() returns (count: nat)
      requires Valid()
      modifies this`cachedTail, this`seen
      ensures Valid() && seen == sent && count == sent - old(seen)
    {
      Distances();
      count := WrappingSub(tail, cachedTail);
      cachedTail, seen := tail, sent;
    }

    /** Takes the oldest prefetched value. */
    method Pop() returns (r: Option<T>)
      requires Valid()
      modifies this`front, this`popped, buf
      ensures Valid()
      ensures r.Some? <==> old(|popped|) < seen
      ensures r.Some? ==> r.value == pushed[old(|popped|)] && popped == old(popped) + [r.value]
      ensures r.None? ==> popped == old(popped)
    {
      Distances();
      if front == cachedTail {
        return None;
      }
      var value := ReadSlot();
      return Some(value);
    }

    method ReadSlot() returns (value: T)
      requires Valid() && |popped| < seen
      modifies this`front, this`popped, buf
      ensures Valid() && value == pushed[old(|popped|)] && popped == old(popped) + [value]
    {
      hide Holds, Wrap;
      var slot := Index(front, cap);
      WrapIndex(|popped|, cap);
      WrapAdd(|popped|, 1);
      HoldsNext(buf[..], pushed, |popped|);
      ghost var was := buf[..];
      value := buf[slot].value;
      buf[slot] := Uninit;
      assert buf[..] == was[slot := Uninit];
      front := Wrap(front + 1);
      popped := popped + [value];
    }

    /** Publishes the slots of values taken. */
    method Release()
      requires Valid()
      modifies this`head, this`freed
      ensures Valid() && freed == |popped|
    {
      head, freed := front, |popped|;
    }

    /** Moves the values out of a run of slots. */
    method MoveSlots(start: nat, len: nat) returns (out: seq<T>)
      requires start + len <= buf.Length && forall j :: start <= j < start + len ==> buf[j].Init?
      modifies buf
      ensures |out| == len && forall j :: 0 <= j < len ==> Init(out[j]) == old(buf[start + j])
      ensures forall j :: 0 <= j < buf.Length ==>
        buf[j] == if start <= j < start + len then Uninit else old(buf[j])
    {
      out := [];
      var offset := 0;
      while offset < len
        invariant 0 <= offset == |out| <= len
        invariant forall j :: 0 <= j < offset ==> Init(out[j]) == old(buf[start + j])
        invariant forall j :: 0 <= j < buf.Length ==>
          buf[j] == if start <= j < start + offset then Uninit else old(buf[j])
      {
        out := out + [buf[start + offset].value];
        buf[start + offset] := Uninit;
        offset := offset + 1;
      }
    }

    /** Moves the next `count` values out in at most two runs of slots. */
    method MoveRun(start: nat, count: nat)  returns (out: seq<T>)
      requires Shape() && Holds(buf[..], pushed, |popped|) && |popped| + count <= |pushed|
      requires start == Index(|popped|, cap)
      modifies buf
      ensures out == pushed[|popped|..|popped| + count] && Holds(buf[..], pushed, |popped| + count)
    {
      hide Holds;
      ghost var n, was := |popped|, buf[..];
      RunValues(was, pushed, n, count);
      var first := Min(count, cap - start);
      var a := MoveSlots(start, first);
      var b := MoveSlots(0, count - first);
      out := a + b;
      RunTaken(was, buf[..], pushed, n, count);
    }

    /** Takes `count` prefetched values. */
    method TakeRun(count: nat) returns (out: seq<T>)
      requires Valid() && count <= seen - |popped|
      modifies this`front, this`popped, buf
      ensures Valid() && out == pushed[old(|popped|)..old(|popped|) + count] && popped == old(popped) + out
    {
      hide Holds, Wrap, Index;
      WrapIndex(|popped|, cap);
      WrapAdd(|popped|, count);
      out := MoveRun(Index(front, cap), count);
      front := Wrap(front + count);
      popped := popped + out;
    }

    /** Moves prefetched values in bulk, up to `limit`. */
    method PopInto(limit: nat) returns (out: seq<T>)
      requires Valid()
      modifies this`front, this`popped, buf
      ensures Valid() && |out| == Min(seen - old(|popped|), limit)
      ensures out == pushed[old(|popped|)..old(|popped|) + |out|] && popped == old(popped) + out
    {
      hide Valid, WrappingSub;
      WindowSize();
      out := TakeRun(Min(WrappingSub(cachedTail, front), limit));
    }

    /** Counts the longest prefix of the next `limit` values that an admission test
        accepts, reading them in place. */
    method AcceptedPrefix<A>(limit: nat, admit: (A, T) -> (A, bool), a: A) returns (n: nat, last: A)
      requires Valid() && limit <= seen - |popped|
      ensures (n, last) == Accepted(pushed[|popped|..|popped| + limit], admit, a)
    {
      hide Valid;
      WindowSize();
      ghost var window := pushed[|popped|..|popped| + limit];
      n, last := 0, a;
      while n < limit
        invariant n <= limit
        invariant var rest := Accepted(window[n..], admit, last);
          Accepted(window, admit, a) == (n + rest.0, rest.1)
      {
        var value := Peek(n);
        assert window[n..][0] == value && window[n..][1..] == window[n + 1..];
        var (next, accept) := admit(last, value);
        last := next;
        if !accept {
          break;
        }
        n := n + 1;
      }
    }

    method Peek(n: nat) returns (value: T)
      requires Valid() && n < seen - |popped|
      ensures value == pushed[|popped| + n]
    {
      WrapAdd(|popped|, n);
      WrapIndex(|popped| + n, cap);
      value := buf[Index(Wrap(front + n), cap)].value;
    }

    /** Moves the longest admitted prefix of the prefetched values, up to `limit`. */
    method PopIntoWhile<A>(limit: nat, admit: (A, T) -> (A, bool), a: A) returns (out: seq<T>, last: A)
      requires Valid()
      modifies this`front, this`popped, buf
      ensures Valid()
      ensures var window := old(pushed[|popped|..|popped| + Min(seen - |popped|, limit)]);
        (|out|, last) == Accepted(window, admit, a) && out == window[..|out|]
      ensures popped == old(popped) + out
    {
      hide Valid, Accepted, WrappingSub;
      WindowSize();
      var window: nat := Min(WrappingSub(cachedTail, front), limit);
      var n: nat;
      n, last := AcceptedPrefix(window, admit, a);
      out := TakeRun(n);
    }

    lemma WindowSize()
      requires Valid()
      ensures |popped| <= seen <= |pushed| && cachedTail < WORD && front < WORD
      ensures WrappingSub(cachedTail, front) == seen - |popped|
    {
      Distances();
    }

    /** Closing the producer publishes everything pushed and says so. */
    method CloseProducer()
      requires Valid()
      modifies this`tail, this`sent, this`producerDropped
      ensures Valid() && sent == |pushed| && producerDropped
    {
      Flush();
      producerDropped := true;
    }

    /** Closing the consumer releases everything taken and says so. */
    method CloseConsumer()
      requires Valid()
      modifies this`head, this`freed, this`consumerDropped
      ensures Valid() && freed == |popped| && consumerDropped
    {
      Release();
      consumerDropped := true;
    }

    /** The producer is gone and everything it published was taken. */
    method IsDisconnected() returns (r: bool)
      requires Valid()
      ensures r <==> producerDropped && |popped| == sent
    {
      hide Slots, Wrap;
      Pow2Of62();
      WrapEqual(sent, |popped|);
      return producerDropped && front == tail;
    }

    method DropSlot(i: nat, ghost m: nat) returns (value: T)
      requires Shape() && Holds(buf[..], pushed, m) && m < |pushed| && i == Wrap(m)
      modifies buf
      ensures value == pushed[m] && Holds(buf[..], pushed, m + 1)
    {
      hide Holds, Wrap;
      WrapIndex(m, cap);
      HoldsNext(buf[..], pushed, m);
      var slot := Index(i, cap);
      value := buf[slot].value;
      ghost var was := buf[..];
      buf[slot] := Uninit;
      assert buf[..] == was[slot := Uninit];
    }

    /** Destroys what neither endpoint took: each unread value once, in order, and
        nothing else. Every slot ends empty. */
    method DropRemaining() returns (dropped: seq<T>)
      requires Valid() && sent == |pushed| && freed == |popped|
      modifies this`head, buf
      ensures popped + dropped == pushed
      ensures head == tail && forall j :: 0 <= j < buf.Length ==> buf[j] == Uninit
    {
      hide Holds, Wrap;
      Pow2Of62();
      ghost var n := |popped|;
      var i := head;
      head := tail;
      dropped := [];
      WrapEqual(|pushed|, n);
      while i != tail
        invariant head == tail && n + |dropped| <= |pushed| && i == Wrap(n + |dropped|)
        invariant dropped == pushed[n..n + |dropped|]
        invariant Holds(buf[..], pushed, n + |dropped|)
        decreases |pushed| - |dropped|
      {
        WrapEqual(|pushed|, n + |dropped|);
        WrapAdd(n + |dropped|, 1);
        var value := DropSlot(i, n + |dropped|);
        dropped := dropped + [value];
        i := Wrap(i + 1);
      }
      WrapEqual(|pushed|, n + |dropped|);
      forall j | 0 <= j < buf.Length ensures buf[j] == Uninit {
        HoldsNothing(buf[..], pushed, j);
      }
    }
  }

  lemma HoldsNone<T>(b: seq<Cell<T>>, pushed: seq<T>)
    requires 0 < |b| && pushed == [] && forall j :: 0 <= j < |b| ==> b[j] == Uninit
    ensures Holds(b, pushed, 0)
  {
  }

  lemma HoldsOneMore<T>(b: seq<Cell<T>>, pushed: seq<T>, n: nat, value: T)
    requires Holds(b, pushed, n) && |pushed| < n + |b|
    ensures b[Index(|pushed|, |b|)] == Uninit
    ensures Holds(b[Index(|pushed|, |b|) := Init(value)], pushed + [value], n)
  {
    var m, slot := |pushed|, Index(|pushed|, |b|);
    forall i | n <= i < n + |b| && i != m ensures Index(i, |b|) != slot {
      if i < m {
        IndexDistinct(i, m, |b|);
      } else {
        IndexDistinct(m, i, |b|);
      }
    }
  }

  lemma HoldsNext<T>(b: seq<Cell<T>>, pushed: seq<T>, m: nat)
    requires Holds(b, pushed, m) && m < |pushed|
    ensures b[Index(m, |b|)] == Init(pushed[m])
    ensures Holds(b[Index(m, |b|) := Uninit], pushed, m + 1)
  {
    var slot := Index(m, |b|);
    ModStep(m, |b|);
    forall i | m < i < m + |b| ensures Index(i, |b|) != slot {
      IndexDistinct(m, i, |b|);
    }
  }

  /** With nothing unread, every slot is empty. */
  lemma HoldsNothing<T>(b: seq<Cell<T>>, pushed: seq<T>, j: nat)
    requires Holds(b, pushed, |pushed|) && j < |b|
    ensures b[j] == Uninit
  {
    var n, start := |pushed|, Index(|pushed|, |b|);
    var d := if start <= j then j - start else j + |b| - start;
    IndexRun(n, d, |b|);
    assert Index(n + d, |b|) == j;
  }
}
