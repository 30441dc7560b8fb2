/** Lane keys: a slot and the generation of its occupant. */
module LaneRegistry {
  import opened Basics

  /** The keys a registry can still give out: returned slots, then fresh ones. */
  datatype Keys = Keys(free: seq<LaneKey>, nextSlot: nat)
  {
    function Next(): LaneKey {
      if free == [] then LaneKey(nextSlot, 0) else free[|free| - 1]
    }

    function Taken(): Keys {
      if free == [] then this.(nextSlot := nextSlot + 1) else this.(free := free[..|free| - 1])
    }

    /** A slot comes back under its next generation, or not at all once those are
        used up. */
    function Returned(key: LaneKey): Keys {
      if key.generation < USIZE_MAX then this.(free := free + [LaneKey(key.slot, key.generation + 1)]) else this
    }
  }

  class Registry {
    var free: seq<LaneKey>
    var nextSlot: nat
    var pages: nat
    var groups: nat

    function View(): Keys
      reads this
    {
      Keys(free, nextSlot)
    }

    /** Every page has its group. */
    ghost predicate Valid()
      reads this
    {
      0 < pages ==> (pages - 1) / PAGES_PER_GROUP < groups
    }

    constructor ()
      ensures Valid() && View() == Keys([], 0)
    {
      free, nextSlot, pages, groups := [], 0, 0, 0;
    }

    /** Gives out the next key and makes sure its ready page exists. */
    method AllocateLane() returns (key: LaneKey)
      requires Valid()
      modifies this
      ensures Valid() && key == old(View()).Next() && View() == old(View()).Taken()
      ensures key.slot / LANES_PER_PAGE < pages && old(pages) <= pages
    {
      if free != [] {
        key := free[|free| - 1];
        free := free[..|free| - 1];
      } else {
        key := LaneKey(nextSlot, 0);
        nextSlot := nextSlot + 1;
      }
      GrowPages(key.slot / LANES_PER_PAGE);
    }

    method GrowPages(page: nat)
      requires Valid()
      modifies this`pages, this`groups
      ensures Valid() && page < pages && old(pages) <= pages
    {
      while pages <= page
        invariant Valid() && old(pages) <= pages
        decreases page - pages
      {
        ghost var p := pages;
        while groups <= pages / PAGES_PER_GROUP
          invariant pages == p && Valid()
        {
          groups := groups + 1;
        }
        pages := pages + 1;
      }
    }

    method RetireLane(key: LaneKey)
      modifies this`free
      ensures View() == old(View()).Returned(key)
    {
      if key.generation < USIZE_MAX {
        free := free + [LaneKey(key.slot, key.generation + 1)];
      }
    }
  }
}

/** Lane identity over the life of a channel: registrations, their adoption into the
    receiver's slot table, retirements, and lookups by identifier. */
module LaneIdentity {
  import opened Basics
  import opened LaneRegistry

  /** `pending`: registered, not yet adopted. `issued` and `retired`: keys given out
      and keys whose lane is gone, ever. */
  datatype State = State(
    channel: nat,
    keys: Keys,
    pending: seq<LaneKey>,
    table: map<nat, LaneKey>,
    issued: set<LaneKey>,
    retired: set<LaneKey>)

  ghost predicate Init(s: State) { s == State(s.channel, Keys([], 0), [], map[], {}, {}) }

  datatype Step = Register | Adopt | Retire(slot: nat)

  predicate Enabled(s: State, step: Step) {
    match step
    case Register => true
    case Adopt => s.pending != []
    case Retire(slot) => slot in s.table
  }

  /** Each adopted lane goes into the slot of its key. */
  function Apply(s: State, step: Step): State
    requires Enabled(s, step)
  {
    match step
    case Register =>
      var key := s.keys.Next();
      s.(keys := s.keys.Taken(), pending := s.pending + [key], issued := s.issued + {key})
    case Adopt =>
      s.(pending := s.pending[1..], table := s.table[s.pending[0].slot := s.pending[0]])
    case Retire(slot) =>
      var key := s.table[slot];
      s.(keys := s.keys.Returned(key), table := s.table - {slot}, retired := s.retired + {key})
  }

  ghost predicate Next(s: State, t: State) { exists step :: Enabled(s, step) && t == Apply(s, step) }

  ghost predicate IsRun(run: seq<State>) {
    && run != [] && Init(run[0])
    && forall i :: 0 <= i < |run| - 1 ==> Next(run[i], run[i + 1])
  }

  /** A lookup first adopts what is pending, so it finds a key there too. */
  predicate Resolves(s: State, id: LaneId) {
    && id.channel == s.channel
    && (id.key in s.pending || (id.key.slot in s.table && s.table[id.key.slot] == id.key))
  }

  // The invariant

  /** Adopted, pending and returned slots are different slots. */
  ghost predicate Apart(s: State) {
    && (forall x :: x in s.table ==> s.table[x].slot == x < s.keys.nextSlot)
    && (forall i :: 0 <= i < |s.pending| ==> s.pending[i].slot < s.keys.nextSlot && s.pending[i].slot !in s.table)
    && (forall i, j :: 0 <= i < j < |s.pending| ==> s.pending[i].slot != s.pending[j].slot)
  }

  ghost predicate Spare(s: State) {
    && (forall f :: 0 <= f < |s.keys.free| ==> s.keys.free[f].slot < s.keys.nextSlot && s.keys.free[f].slot !in s.table)
    && (forall f, i :: 0 <= f < |s.keys.free| && 0 <= i < |s.pending| ==> s.keys.free[f].slot != s.pending[i].slot)
    && (forall f, g :: 0 <= f < g < |s.keys.free| ==> s.keys.free[f].slot != s.keys.free[g].slot)
  }

  /** Of the keys a slot has had, the present one is the newest, and the next one is
      newer still. */
  ghost predicate Newest(s: State) { forall k :: k in s.issued ==> Superseded(s, k) }

  ghost predicate Superseded(s: State, k: LaneKey) {
    && k.slot < s.keys.nextSlot
    && (forall f :: 0 <= f < |s.keys.free| && s.keys.free[f].slot == k.slot ==> k.generation < s.keys.free[f].generation)
    && (k.slot in s.table ==> k.generation <= s.table[k.slot].generation)
    && (forall i :: 0 <= i < |s.pending| && s.pending[i].slot == k.slot ==> k.generation <= s.pending[i].generation)
  }

  predicate Present(s: State, k: LaneKey) { Resolves(s, LaneId(s.channel, k)) }

  /** A key given out is present or retired, and not both. */
  ghost predicate Sorted(s: State) {
    && (forall k :: k in s.issued ==> (Present(s, k) <==> k !in s.retired))
    && (forall k :: Present(s, k) || k in s.retired ==> k in s.issued)
  }

  ghost predicate Inv(s: State) { Apart(s) && Spare(s) && Newest(s) && Sorted(s) }

  lemma StepKeepsApart(s: State, step: Step)
    requires Apart(s) && Spare(s) && Enabled(s, step)
    ensures Apart(Apply(s, step))
  {
  }

  lemma StepKeepsSpare(s: State, step: Step)
    requires Apart(s) && Spare(s) && Enabled(s, step)
    ensures Spare(Apply(s, step))
  {
  }

  lemma StepKeepsSuperseded(s: State, step: Step, k: LaneKey)
    requires Apart(s) && Spare(s) && Superseded(s, k) && Enabled(s, step)
    ensures Superseded(Apply(s, step), k)
  {
  }

  lemma NextIsSuperseded(s: State)
    requires Apart(s) && Spare(s)
    ensures Superseded(Apply(s, Register), s.keys.Next())
  {
  }

  lemma StepKeepsNewest(s: State, step: Step)
    requires Apart(s) && Spare(s) && Newest(s) && Enabled(s, step)
    ensures Newest(Apply(s, step))
  {
    hide Superseded, Apart, Spare;
    var t := Apply(s, step);
    NextIsSuperseded(s);
    forall k | k in t.issued ensures Superseded(t, k) {
      if k in s.issued {
        StepKeepsSuperseded(s, step, k);
      }
    }
  }

  /** The next key was never given out. */
  lemma NextIsNew(s: State)
    requires Newest(s)
    ensures s.keys.Next() !in s.issued
  {
  }

  lemma StepKeepsSorted(s: State, step: Step)
    requires Apart(s) && Newest(s) && Sorted(s) && Enabled(s, step)
    ensures Sorted(Apply(s, step))
  {
    NextIsNew(s);
  }

  lemma StepKeepsInv(s: State, step: Step)
    requires Inv(s) && Enabled(s, step)
    ensures Inv(Apply(s, step))
  {
    hide Apart, Spare, Newest, Sorted, Apply;
    StepKeepsApart(s, step);
    StepKeepsSpare(s, step);
    StepKeepsNewest(s, step);
    StepKeepsSorted(s, step);
  }

  lemma {:induction false} RunInv(run: seq<State>, k: nat)
    requires IsRun(run) && k < |run|
    ensures Inv(run[k])
    decreases k
  {
    if k > 0 {
      RunInv(run, k - 1);
      assert Next(run[k - 1], run[k - 1 + 1]);
      var step :| Enabled(run[k - 1], step) && run[k] == Apply(run[k - 1], step);
      StepKeepsInv(run[k - 1], step);
    }
  }

  /** A key is given out once, ever, and only for a slot no lane occupies. */
  lemma KeysAreNew(run: seq<State>, k: nat)
    requires IsRun(run) && k < |run|
    ensures var key := run[k].keys.Next();
      key !in run[k].issued && forall other :: Present(run[k], other) ==> other.slot != key.slot
  {
    RunInv(run, k);
    NextIsNew(run[k]);
  }

  /** Adoption never overwrites a lane. */
  lemma AdoptedSlotIsVacant(run: seq<State>, k: nat, i: nat)
    requires IsRun(run) && k < |run| && i < |run[k].pending|
    ensures run[k].pending[i].slot !in run[k].table
  {
    RunInv(run, k);
  }

  /** An identifier resolves if and only if it names this channel and its own lane was
      registered and not retired. */
  lemma OnlyLiveKeysResolve(run: seq<State>, k: nat, id: LaneId)
    requires IsRun(run) && k < |run|
    ensures Resolves(run[k], id) <==>
            id.channel == run[k].channel && id.key in run[k].issued && id.key !in run[k].retired
  {
    RunInv(run, k);
    assert Present(run[k], id.key) || id.key in run[k].retired ==> id.key in run[k].issued;
  }

  lemma {:induction false} RetiredStays(run: seq<State>, i: nat, k: nat)
    requires IsRun(run) && i <= k < |run|
    ensures run[i].retired <= run[k].retired && run[k].channel == run[i].channel
    decreases k
  {
    if i < k {
      RetiredStays(run, i, k - 1);
      assert Next(run[k - 1], run[k - 1 + 1]);
    }
  }

  /** An identifier kept past its lane never selects a later one: from the step that
      retires its lane on, it does not resolve. */
  lemma RetiredNeverResolves(run: seq<State>, i: nat, k: nat, slot: nat)
    requires IsRun(run) && i < k < |run| && slot in run[i].table && run[i + 1] == Apply(run[i], Retire(slot))
    ensures !Resolves(run[k], LaneId(run[i].channel, run[i].table[slot]))
  {
    RetiredStays(run, i, i + 1);
    RetiredStays(run, i + 1, k);
    OnlyLiveKeysResolve(run, k, LaneId(run[i].channel, run[i].table[slot]));
  }

  /** And until then it resolves to that very lane. */
  lemma RegisteredResolves(run: seq<State>, i: nat, k: nat)
    requires IsRun(run) && i < k < |run| && run[i + 1] == Apply(run[i], Register)
    requires run[i].keys.Next() !in run[k].retired
    ensures Resolves(run[k], LaneId(run[i].channel, run[i].keys.Next()))
  {
    IssuedStays(run, i + 1, k);
    RetiredStays(run, i, k);
    OnlyLiveKeysResolve(run, k, LaneId(run[i].channel, run[i].keys.Next()));
  }

  lemma {:induction false} IssuedStays(run: seq<State>, i: nat, k: nat)
    requires IsRun(run) && i <= k < |run|
    ensures run[i].issued <= run[k].issued
    decreases k
  {
    if i < k {
      IssuedStays(run, i, k - 1);
      assert Next(run[k - 1], run[k - 1 + 1]);
    }
  }
}

/** Channel identifiers, taken from one counter by any number of threads. */
module ChannelIds {

  const U64_MAX: nat := 0xFFFF_FFFF_FFFF_FFFF

  /** What a thread allocating an identifier last saw of the counter. */
  datatype Pc = Resting | Trying(current: nat)

  datatype State = State(counter: nat, threads: seq<Pc>, issued: seq<nat>)

  ghost predicate Init(s: State) {
    s.counter <= U64_MAX && s.issued == [] && forall t :: 0 <= t < |s.threads| ==> s.threads[t] == Resting
  }

  datatype Step = Load(t: nat) | Succeed(t: nat) | Fail(t: nat) | Panic(t: nat)

  predicate Enabled(s: State, step: Step) {
    step.t < |s.threads| &&
    match step
    case Load(t) => s.threads[t].Resting?
    case Succeed(t) => s.threads[t].Trying? && s.threads[t].current < U64_MAX && s.counter == s.threads[t].current
    case Fail(t) => s.threads[t].Trying? && s.threads[t].current < U64_MAX
    case Panic(t) => s.threads[t].Trying? && s.threads[t].current == U64_MAX
  }

  function Apply(s: State, step: Step): State
    requires Enabled(s, step)
  {
    match step
    case Load(t) => s.(threads := s.threads[t := Trying(s.counter)])
    case Succeed(t) =>
      s.(counter := s.threads[t].current + 1, issued := s.issued + [s.threads[t].current],
         threads := s.threads[t := Resting])
    case Fail(t) => s.(threads := s.threads[t := Trying(s.counter)])
    case Panic(t) => s.(threads := s.threads[t := Resting])
  }

  ghost predicate IsRun(run: seq<State>) {
    && run != [] && Init(run[0])
    && forall i :: 0 <= i < |run| - 1 ==> Next(run[i], run[i + 1])
  }

  ghost predicate Next(s: State, t: State) { exists step :: Enabled(s, step) && t == Apply(s, step) }

  ghost predicate Inv(s: State) {
    && s.counter <= U64_MAX
    && (forall t :: 0 <= t < |s.threads| && s.threads[t].Trying? ==> s.threads[t].current <= U64_MAX)
    && (forall i :: 0 <= i < |s.issued| ==> s.issued[i] < s.counter)
    && (forall i, j :: 0 <= i < j < |s.issued| ==> s.issued[i] < s.issued[j])
  }

  lemma StepKeepsInv(s: State, step: Step)
    requires Inv(s) && Enabled(s, step)
    ensures Inv(Apply(s, step))
  {
  }

  lemma {:induction false} RunInv(run: seq<State>, k: nat)
    requires IsRun(run) && k < |run|
    ensures Inv(run[k])
    decreases k
  {
    if k > 0 {
      RunInv(run, k - 1);
      assert Next(run[k - 1], run[k - 1 + 1]);
      var step :| Enabled(run[k - 1], step) && run[k] == Apply(run[k - 1], step);
      StepKeepsInv(run[k - 1], step);
    }
  }

  /** However many threads allocate, and even at the end of the range, no channel
      identifier is given out twice. */
  lemma ChannelIdsAreUnique(run: seq<State>, k: nat, i: nat, j: nat)
    requires IsRun(run) && k < |run| && i < j < |run[k].issued|
    ensures run[k].issued[i] < run[k].issued[j] < U64_MAX
  {
    RunInv(run, k);
  }
}
