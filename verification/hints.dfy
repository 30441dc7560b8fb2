/** The ring's wakeup hints. One endpoint publishes progress and asks whether its
    peer needs a wake; the peer registers when it finds nothing and looks again.

    The same protocol runs in both directions. For data, `published` counts values
    flushed and `level` counts values taken. For space, `published` counts slots
    released and `level` counts pushes less the capacity. Either way there is
    something exactly when `published` exceeds `level`. Each atomic operation is
    one step. */
module WakeupHints {

  /** The publishing endpoint, inside a publication that asks for a hint.
      `observed`: it saw the queue empty (or full) and wakes regardless. */
  datatype NotifierPc =
    | Resting
    | Enabling
    | Publishing
    | Asking(observed: bool)
    | Clearing
    | Swapping

  /** The looking endpoint. `registered` is false before hints are activated. */
  datatype WaiterPc =
    | Busy
    | Looking
    | Activating
    | Registering
    | Acknowledging
    | Rechecking
    | Waiting(registered: bool)

  /** `signaled`: a hint came back true since the current look began.
      `spent`: a hint came back true since the endpoint last registered.
      `plain`: a publication without a hint happened since the look began.
      `answer`: what the last hint came back with. */
  datatype State = State(
    enabled: bool,
    armed: bool,
    waiting: bool,
    published: nat,
    level: nat,
    notifier: NotifierPc,
    waiter: WaiterPc,
    signaled: bool,
    spent: bool,
    plain: bool,
    answer: bool)
  {
    predicate Something() { level < published }
  }

  ghost predicate Init(s: State) {
    s == State(false, false, false, s.published, s.level, Resting, Busy, false, false, false, false)
  }

  datatype Step =
    | Start
    | Enable
    | NothingNew
    | Publish(more: nat, observed: bool)
    | PublishPlain(more: nat)
    | SeesObserved
    | SeesUnarmed
    | SeesArmed
    | Clear
    | Swap
    | Use
    | Look
    | LookFinds
    | LookFindsNothing
    | NotActivated
    | Activated
    | Register
    | Acknowledge
    | RecheckFinds
    | RecheckFindsNothing
    | Resume

  predicate Enabled(s: State, step: Step) {
    match step
    case Start => s.notifier.Resting?
    case Enable => s.notifier.Enabling?
    case NothingNew => s.notifier.Publishing?
    case Publish(more, _) => s.notifier.Publishing? && 0 < more
    case PublishPlain(more) => s.notifier.Resting? && 0 < more
    case SeesObserved => s.notifier.Asking? && s.notifier.observed
    case SeesUnarmed => s.notifier.Asking? && !s.notifier.observed && !s.armed
    case SeesArmed => s.notifier.Asking? && !s.notifier.observed && s.armed
    case Clear => s.notifier.Clearing?
    case Swap => s.notifier.Swapping?
    case Use => s.waiter.Busy? && s.Something()
    case Look => s.waiter.Busy?
    case LookFinds => s.waiter.Looking? && s.Something()
    case LookFindsNothing => s.waiter.Looking? && !s.Something()
    case NotActivated => s.waiter.Activating? && !s.enabled
    case Activated => s.waiter.Activating? && s.enabled
    case Register => s.waiter.Registering?
    case Acknowledge => s.waiter.Acknowledging?
    case RecheckFinds => s.waiter.Rechecking? && s.Something()
    case RecheckFindsNothing => s.waiter.Rechecking? && !s.Something()
    case Resume => s.waiter.Waiting?
  }

  function Apply(s: State, step: Step): State
    requires Enabled(s, step)
  {
    match step
    case Start => s.(notifier := Enabling)
    case Enable => s.(enabled := true, notifier := Publishing)
    case NothingNew => s.(notifier := Resting)
    case Publish(more, observed) => s.(published := s.published + more, notifier := Asking(observed))
    case PublishPlain(more) => s.(published := s.published + more, plain := true)
    case SeesObserved => s.(notifier := Clearing)
    case SeesUnarmed => s.(notifier := Clearing)
    case SeesArmed => s.(notifier := Swapping)
    case Clear => s.(waiting := false, signaled := true, spent := true, answer := true, notifier := Resting)
    case Swap =>
      s.(waiting := false, signaled := s.signaled || s.waiting, spent := s.spent || s.waiting, answer := s.waiting,
         notifier := Resting)
    case Use => s.(level := s.level + 1)
    case Look => s.(waiter := Looking, signaled := false, plain := false)
    case LookFinds => s.(waiter := Busy)
    case LookFindsNothing => s.(waiter := Activating)
    case NotActivated => s.(waiter := Waiting(false))
    case Activated => s.(waiter := Registering)
    case Register => s.(waiting := true, spent := false, waiter := Acknowledging)
    case Acknowledge => s.(armed := true, waiter := Rechecking)
    case RecheckFinds => s.(waiter := Busy)
    case RecheckFindsNothing => s.(waiter := Waiting(true))
    case Resume => s.(waiter := Busy)
  }

  ghost predicate Next(s: State, t: State) { exists step :: Enabled(s, step) && t == Apply(s, step) }

  ghost predicate IsRun(run: seq<State>) {
    && run != [] && Init(run[0])
    && forall i :: 0 <= i < |run| - 1 ==> Next(run[i], run[i + 1])
  }

  /** A hint is still being computed for a publication already made. */
  predicate Taking(s: State) { s.notifier.Asking? || s.notifier.Clearing? || s.notifier.Swapping? }

  predicate Registered(s: State) { s.waiter.Acknowledging? || s.waiter.Rechecking? || s.waiter == Waiting(true) }

  ghost predicate Inv(s: State) {
    && (s.armed ==> s.enabled)
    && (s.notifier.Publishing? || Taking(s) ==> s.enabled)
    && (s.notifier.Swapping? ==> s.armed)
    && (s.waiter.Registering? || Registered(s) ==> s.enabled)
    && (s.waiter.Rechecking? || s.waiter == Waiting(true) ==> s.armed)
       // a registration is used up by the first hint that comes back true, and by nothing else
    && (Registered(s) ==> (s.waiting <==> !s.spent) && (s.spent ==> s.signaled))
    && (s.waiter == Waiting(false) ==> !s.armed)
       // what a recheck or an early look misses was published since, and its hint is due
    && (s.waiter == Waiting(true) && s.Something() && !s.plain && !s.spent ==> Taking(s))
    && (s.waiter == Waiting(false) && s.Something() && !s.plain && !s.signaled ==> Taking(s))
    && (s.waiter.Activating? && !s.enabled && !s.plain ==> !s.Something())
  }

  lemma StepKeepsInv(s: State, step: Step)
    requires Inv(s) && Enabled(s, step)
    ensures Inv(Apply(s, step))
  {
  }

  lemma {:induction false} RunInv(run: seq<State>, k: nat)
    requires IsRun(run) && k < |run|
    ensures Inv(run[k])
    decreases k
  {
    hide Inv, Apply, Enabled;
    if k == 0 {
      InitInv(run[0]);
    } else {
      RunInv(run, k - 1);
      assert Next(run[k - 1], run[k - 1 + 1]);
      var step :| Enabled(run[k - 1], step) && run[k] == Apply(run[k - 1], step);
      StepKeepsInv(run[k - 1], step);
    }
  }

  lemma InitInv(s: State)
    requires Init(s)
    ensures Inv(s)
  {
  }

  /** No hint is lost: an endpoint that found nothing and stopped looking, with
      something published since, has been told to look again, unless the hint is
      still being computed. One that registered was told after it did so. Not
      covered are publications that ask for no hint. */
  lemma NoLostHint(run: seq<State>, k: nat)
    requires IsRun(run) && k < |run|
    requires run[k].waiter.Waiting? && run[k].Something() && !run[k].plain && !Taking(run[k])
    ensures run[k].signaled && (run[k].waiter.registered ==> run[k].spent)
  {
    RunInv(run, k);
  }

  /** What the hint still being computed for a stopped endpoint comes back with: true
      unless the notifier relies on the registration and an earlier hint has used it
      up. The notifier cannot rely on one that was never made. */
  lemma PendingHintExactlyWhen(run: seq<State>, k: nat, step: Step)
    requires IsRun(run) && k < |run| && run[k].waiter.Waiting? && Taking(run[k])
    requires Enabled(run[k], step) && Apply(run[k], step).notifier.Resting?
    ensures Apply(run[k], step).answer <==> run[k].notifier.Clearing? || !run[k].spent
    ensures run[k].notifier.Swapping? ==> run[k].waiter.registered
  {
    RunInv(run, k);
  }

  /** A run goes on with any enabled step. */
  lemma Extend(run: seq<State>, step: Step) returns (next: seq<State>)
    requires IsRun(run) && Enabled(run[|run| - 1], step)
    ensures IsRun(next) && next[|next| - 1] == Apply(run[|run| - 1], step)
  {
    next := run + [Apply(run[|run| - 1], step)];
    forall i | 0 <= i < |next| - 1 ensures Next(next[i], next[i + 1]) {
      if i < |run| - 1 {
        assert Next(run[i], run[i + 1]);
      }
    }
  }

  lemma Started() returns (run: seq<State>)
    ensures IsRun(run)
    ensures run[|run| - 1] == State(false, false, false, 0, 0, Resting, Busy, false, false, false, false)
  {
    run := [State(false, false, false, 0, 0, Resting, Busy, false, false, false, false)];
  }

  /** A publication that asks for a hint, up to its hint. */
  lemma ExtendPublish(run: seq<State>) returns (next: seq<State>)
    requires IsRun(run) && run[|run| - 1].notifier.Resting?
    ensures IsRun(next)
    ensures var s := run[|run| - 1];
      next[|next| - 1] == s.(enabled := true, published := s.published + 1, notifier := Asking(false))
  {
    hide IsRun;
    next := Extend(run, Start);
    next := Extend(next, Enable);
    next := Extend(next, Publish(1, false));
  }

  /** A look that finds nothing, up to its registration. */
  lemma ExtendRegister(run: seq<State>) returns (next: seq<State>)
    requires IsRun(run) && run[|run| - 1].waiter.Busy? && run[|run| - 1].enabled && !run[|run| - 1].Something()
    ensures IsRun(next)
    ensures next[|next| - 1] ==
            run[|run| - 1].(waiter := Rechecking, armed := true, waiting := true, signaled := false, spent := false,
                            plain := false)
  {
    hide IsRun;
    next := Extend(run, Look);
    next := Extend(next, LookFindsNothing);
    next := Extend(next, Activated);
    next := Extend(next, Register);
    next := Extend(next, Acknowledge);
  }

  /** The exception is needed: a plain flush after a look can go unnoticed. */
  lemma PlainPublicationCanBeMissed() returns (run: seq<State>)
    ensures IsRun(run)
    ensures var s := run[|run| - 1]; s.waiter.Waiting? && s.Something() && s.notifier.Resting? && !s.signaled
  {
    hide IsRun;
    run := Started();
    run := Extend(run, Look);
    run := Extend(run, LookFindsNothing);
    run := Extend(run, NotActivated);
    run := Extend(run, PublishPlain(1));
  }

  /** A hint for a stopped endpoint with something published can come back false. The
      endpoint takes the first value before its hint is computed and registers; that
      hint uses the registration up, and the next publication finds none. */
  lemma PendingHintCanBeFalse() returns (run: seq<State>)
    ensures IsRun(run)
    ensures var s := run[|run| - 1];
      s.waiter == Waiting(true) && s.Something() && !s.plain && s.notifier.Resting? && !s.answer && s.spent
  {
    hide IsRun;
    run := Started();
    run := ExtendPublish(run);
    run := Extend(run, Use);
    run := ExtendRegister(run);
    run := Extend(run, SeesArmed);
    run := Extend(run, Swap);
    run := Extend(run, RecheckFindsNothing);
    run := ExtendPublish(run);
    run := Extend(run, SeesArmed);
    run := Extend(run, Swap);
  }
}
