/** One receiver's staging queue in the multi-receiver channel, and the moves
    between such queues. */
module WorkQueue {
  import opened Basics

  class WorkQueue<T> {
    var values: seq<T>
    const capacity: Option<nat>

    predicate Fits(n: nat)
      reads this
    {
      capacity.None? || |values| + n <= capacity.value
    }

    constructor (capacity: Option<nat>)
      ensures this.capacity == capacity && values == []
    {
      this.capacity := capacity;
      values := [];
    }

    /** Appends a batch. A bounded queue with no room left would panic. */
    method PushBatch(batch: seq<T>)
      requires Fits(|batch|)
      modifies this
      ensures values == old(values) + batch
    {
      var i := 0;
      while i < |batch|
        invariant i <= |batch| && values == old(values) + batch[..i]
      {
        values := values + [batch[i]];
        i := i + 1;
      }
    }

    method Pop() returns (r: Option<T>)
      modifies this
      ensures r.None? <==> old(values) == []
      ensures old(values) == (if r.Some? then [r.value] else []) + values
    {
      if values == [] {
        return None;
      }
      r := Some(values[0]);
      values := values[1..];
    }

    /** Steals the oldest value and moves the next ones to the thief: half of what is
        left, rounded up, but never more than seven. Nothing is lost, duplicated or
        reordered, and the victim keeps its newest values. */
    method StealBatchInto(thief: WorkQueue<T>) returns (r: Option<T>, ghost moved: seq<T>)
      requires thief != this && (values != [] ==> thief.Fits(Transfer(|values| - 1)))
      modifies this, thief
      ensures r.None? <==> old(values) == []
      ensures old(values) == (if r.Some? then [r.value] else []) + moved + values
      ensures thief.values == old(thief.values) + moved
      ensures |moved| <= STEAL_BATCH_LIMIT - 1
      ensures |values| <= |moved| || |moved| == STEAL_BATCH_LIMIT - 1
      ensures |moved| <= |values| + 1
    {
      moved := [];
      r := Pop();
      if r.None? {
        return;
      }
      var transfer := Transfer(|values|);
      var stolen: seq<T> := [];
      ghost var rest := values;
      while |stolen| < transfer
        invariant |stolen| <= transfer && rest == stolen + values && thief.values == old(thief.values)
        decreases transfer - |stolen|
      {
        var next := Pop();
        stolen := stolen + [next.value];
      }
      moved := stolen;
      thief.PushBatch(stolen);
    }

    /** Moves everything to the destination, in order. */
    method DrainInto(destination: WorkQueue<T>) returns (any: bool)
      requires destination != this && destination.Fits(|values|)
      modifies this, destination
      ensures values == [] && destination.values == old(destination.values) + old(values)
      ensures any == (old(values) != [])
    {
      var drained := values;
      values := [];
      any := drained != [];
      destination.PushBatch(drained);
    }
  }
}
