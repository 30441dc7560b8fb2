/** The single-waiter wait cell: a notification counter with a WAITING bit, and a
    mutex and condition variable that only a parked waiter makes anyone touch.
    Notification counts are not bounded. */
module WaitCell {

  /** `snapshot` is the notification count at registration. The waiter holds the
      mutex from its last look at the counter until it sleeps. */
  datatype WaiterPc =
    | Out
    | Registered(snapshot: nat)
    | Checked(snapshot: nat)
    | Asleep(snapshot: nat)
    | Waking
    | Leaving

  /** A notifier that saw the WAITING bit still has to lock and signal. */
  datatype NotifierPc = Resting | Owing

  /** `last`: who made the latest notification. */
  datatype State = State(count: nat, bit: bool, waiter: WaiterPc, notifiers: seq<NotifierPc>, last: nat)
  {
    predicate MutexHeld() { waiter.Checked? }
  }

  ghost predicate Init(s: State) {
    && s.count == 0 && !s.bit && s.waiter == Out && s.last == 0
    && forall n :: 0 <= n < |s.notifiers| ==> s.notifiers[n] == Resting
  }

  datatype Step =
    | Prepare
    | Cancel
    | CheckCurrent
    | CheckStale
    | Sleep
    | Stray
    | Relock
    | Leave
    | Notify(n: nat)
    | Signal(n: nat)
    | Quiet(n: nat)

  predicate Enabled(s: State, step: Step) {
    match step
    case Prepare => s.waiter.Out?
    case Cancel => s.waiter.Registered?
    case CheckCurrent => s.waiter.Registered? && s.count == s.waiter.snapshot
    case CheckStale => s.waiter.Registered? && s.count != s.waiter.snapshot
    case Sleep => s.waiter.Checked?
    case Stray => s.waiter.Asleep?
    case Relock => s.waiter.Waking?
    case Leave => s.waiter.Leaving?
    case Notify(n) => n < |s.notifiers| && s.notifiers[n].Resting?
    case Signal(n) => n < |s.notifiers| && s.notifiers[n].Owing? && !s.MutexHeld() && s.bit
    case Quiet(n) => n < |s.notifiers| && s.notifiers[n].Owing? && !s.MutexHeld() && !s.bit
  }

  function Apply(s: State, step: Step): State
    requires Enabled(s, step)
  {
    match step
    case Prepare => s.(bit := true, waiter := Registered(s.count))
    case Cancel => s.(waiter := Leaving)
    case CheckCurrent => s.(waiter := Checked(s.waiter.snapshot))
    case CheckStale => s.(waiter := Leaving)
    case Sleep => s.(waiter := Asleep(s.waiter.snapshot))
    case Stray => s.(waiter := Waking)
    case Relock => s.(waiter := Leaving)
    case Leave => s.(bit := false, waiter := Out)
    case Notify(n) =>
      s.(count := s.count + 1, last := n, notifiers := s.notifiers[n := if s.bit then Owing else Resting])
    case Signal(n) =>
      s.(notifiers := s.notifiers[n := Resting], waiter := if s.waiter.Asleep? then Waking else s.waiter)
    case Quiet(n) => s.(notifiers := s.notifiers[n := Resting])
  }

  ghost predicate Next(s: State, t: State) { exists step :: Enabled(s, step) && t == Apply(s, step) }

  ghost predicate IsRun(run: seq<State>) {
    && run != [] && Init(run[0])
    && forall i :: 0 <= i < |run| - 1 ==> Next(run[i], run[i + 1])
  }

  predicate Parked(w: WaiterPc) { w.Checked? || w.Asleep? }

  ghost predicate Inv(s: State) {
    && s.bit == !s.waiter.Out?
    && (s.waiter.Registered? || Parked(s.waiter) ==> s.waiter.snapshot <= s.count)
    && (Parked(s.waiter) && s.waiter.snapshot < s.count ==> s.last < |s.notifiers| && s.notifiers[s.last].Owing?)
  }

  lemma StepKeepsInv(s: State, step: Step)
    requires Inv(s) && Enabled(s, step)
    ensures Inv(Apply(s, step))
  {
  }

  lemma {:induction false} RunInv(run: seq<State>, k: nat)
    requires IsRun(run) && k < |run|
    ensures Inv(run[k])
    decreases k
  {
    if k > 0 {
      RunInv(run, k - 1);
      assert Next(run[k - 1], run[k - 1 + 1]);
      var step :| Enabled(run[k - 1], step) && run[k] == Apply(run[k - 1], step);
      StepKeepsInv(run[k - 1], step);
    }
  }

  /** No lost notification: a waiter asleep although it was notified since it
      registered is about to be signaled. The notifier's next step is not blocked,
      and wakes it. */
  lemma SleeperIsSignaled(run: seq<State>, k: nat)
    requires IsRun(run) && k < |run| && run[k].waiter.Asleep? && run[k].waiter.snapshot < run[k].count
    ensures Enabled(run[k], Signal(run[k].last))
    ensures Apply(run[k], Signal(run[k].last)).waiter.Waking?
  {
    RunInv(run, k);
  }
}

/** The cell several waiters share. Registrations are counted under the mutex and
    the WAITING bit says whether there are any. */
module MultiWaitCell {
  import opened Basics

  /** `before`: signals that had woken somebody by the waiter's last look at the
      counter. */
  datatype WaiterPc =
    | Out
    | Registered(snapshot: nat)
    | Checked(snapshot: nat, before: nat)
    | Asleep(snapshot: nat, before: nat)
    | Waking

  /** A notifier that saw the WAITING bit; `at` is the count it made. */
  datatype NotifierPc = Resting | Owing(all: bool, at: nat)

  /** `wakes`: signals that woke somebody so far. `lastAll` and `lastBy`: the latest
      notification of all waiters and who made it. `doneAll`: the latest one whose
      signal has run. `holder`: who has the mutex
      between its last look and its sleep. */
  datatype State = State(
    count: nat,
    bit: bool,
    registered: nat,
    waiters: seq<WaiterPc>,
    notifiers: seq<NotifierPc>,
    wakes: nat,
    lastAll: nat,
    lastBy: nat,
    doneAll: nat,
    held: bool,
    holder: nat)

  ghost predicate Init(s: State) {
    && s.count == 0 && !s.bit && s.registered == 0 && s.wakes == 0 && s.lastAll == 0 && s.doneAll == 0 && !s.held
    && (forall w :: 0 <= w < |s.waiters| ==> s.waiters[w] == Out)
    && (forall n :: 0 <= n < |s.notifiers| ==> s.notifiers[n] == Resting)
  }

  datatype Step =
    | Prepare(w: nat)
    | Remove(w: nat)
    | RemoveLast(w: nat)
    | CheckCurrent(w: nat)
    | Sleep(w: nat)
    | Stray(w: nat)
    | Notify(n: nat, all: bool)
    | NotifyNobody(n: nat, all: bool)
    | SignalOne(n: nat, w: nat)
    | SignalAll(n: nat)
    | SignalNobody(n: nat)

  /** A registration ends without sleeping, after a stale look, or on waking. */
  predicate MayLeave(s: State, w: nat) {
    w < |s.waiters| && !s.held && (s.waiters[w].Registered? || s.waiters[w].Waking?)
  }

  predicate SomeAsleep(ws: seq<WaiterPc>) { exists w :: 0 <= w < |ws| && ws[w].Asleep? }

  predicate Owes(s: State, n: nat) { n < |s.notifiers| && s.notifiers[n].Owing? && !s.held }

  predicate Enabled(s: State, step: Step) {
    match step
    case Prepare(w) => w < |s.waiters| && s.waiters[w].Out? && !s.held
    case Remove(w) => MayLeave(s, w) && 1 < s.registered
    case RemoveLast(w) => MayLeave(s, w) && s.registered == 1
    case CheckCurrent(w) =>
      w < |s.waiters| && s.waiters[w].Registered? && s.waiters[w].snapshot == s.count && !s.held
    case Sleep(w) => w < |s.waiters| && s.waiters[w].Checked? && s.held
    case Stray(w) => w < |s.waiters| && s.waiters[w].Asleep?
    case Notify(n, _) => n < |s.notifiers| && s.notifiers[n].Resting? && s.bit
    case NotifyNobody(n, _) => n < |s.notifiers| && s.notifiers[n].Resting? && !s.bit
    case SignalOne(n, w) => Owes(s, n) && !s.notifiers[n].all && w < |s.waiters| && s.waiters[w].Asleep?
    case SignalAll(n) => Owes(s, n) && s.notifiers[n].all && SomeAsleep(s.waiters)
    case SignalNobody(n) => Owes(s, n) && !SomeAsleep(s.waiters)
  }

  function WakeAll(ws: seq<WaiterPc>): (r: seq<WaiterPc>)
    ensures |r| == |ws|
    ensures forall w :: 0 <= w < |ws| ==> r[w] == if ws[w].Asleep? then Waking else ws[w]
  {
    if ws == [] then []
    else
      var last := ws[|ws| - 1];
      WakeAll(ws[..|ws| - 1]) + [if last.Asleep? then Waking else last]
  }

  function Apply(s: State, step: Step): State
    requires Enabled(s, step)
  {
    match step
    case Prepare(w) =>
      s.(registered := s.registered + 1, bit := true, waiters := s.waiters[w := Registered(s.count)])
    case Remove(w) => s.(registered := s.registered - 1, waiters := s.waiters[w := Out])
    case RemoveLast(w) => s.(registered := 0, bit := false, waiters := s.waiters[w := Out])
    case CheckCurrent(w) =>
      s.(held := true, holder := w, waiters := s.waiters[w := Checked(s.waiters[w].snapshot, s.wakes)])
    case Sleep(w) =>
      s.(held := false, waiters := s.waiters[w := Asleep(s.waiters[w].snapshot, s.waiters[w].before)])
    case Stray(w) => s.(waiters := s.waiters[w := Waking])
    case Notify(n, all) =>
      s.(count := s.count + 1, notifiers := s.notifiers[n := Owing(all, s.count + 1)],
         lastAll := if all then s.count + 1 else s.lastAll, lastBy := if all then n else s.lastBy)
    case NotifyNobody(n, all) => s.(count := s.count + 1)
    case SignalOne(n, w) =>
      s.(wakes := s.wakes + 1, notifiers := s.notifiers[n := Resting], waiters := s.waiters[w := Waking])
    case SignalAll(n) =>
      s.(wakes := s.wakes + 1, notifiers := s.notifiers[n := Resting], waiters := WakeAll(s.waiters),
         doneAll := Max(s.doneAll, s.notifiers[n].at))
    case SignalNobody(n) =>
      s.(notifiers := s.notifiers[n := Resting],
         doneAll := if s.notifiers[n].all then Max(s.doneAll, s.notifiers[n].at) else s.doneAll)
  }

  ghost predicate Next(s: State, t: State) { exists step :: Enabled(s, step) && t == Apply(s, step) }

  ghost predicate IsRun(run: seq<State>) {
    && run != [] && Init(run[0])
    && forall i :: 0 <= i < |run| - 1 ==> Next(run[i], run[i + 1])
  }

  // The invariant

  function In(ws: seq<WaiterPc>): nat {
    if ws == [] then 0 else In(ws[..|ws| - 1]) + if ws[|ws| - 1].Out? then 0 else 1
  }

  lemma {:induction false} InUpdate(ws: seq<WaiterPc>, w: nat, x: WaiterPc)
    requires w < |ws|
    ensures In(ws[w := x]) == In(ws) - (if ws[w].Out? then 0 else 1) + if x.Out? then 0 else 1
    decreases |ws|
  {
    var m := |ws| - 1;
    if w < m {
      InUpdate(ws[..m], w, x);
      assert ws[w := x][..m] == ws[..m][w := x];
    } else {
      assert ws[w := x][..m] == ws[..m];
    }
  }

  lemma {:induction false} InWakeAll(ws: seq<WaiterPc>)
    ensures In(WakeAll(ws)) == In(ws)
    decreases |ws|
  {
    if ws != [] {
      InWakeAll(ws[..|ws| - 1]);
      assert WakeAll(ws)[..|ws| - 1] == WakeAll(ws[..|ws| - 1]);
    }
  }

  /** Notifications later than `snapshot` whose signal is still to come. */
  function Due(ns: seq<NotifierPc>, snapshot: nat): nat {
    if ns == [] then 0
    else Due(ns[..|ns| - 1], snapshot) + if ns[|ns| - 1].Owing? && snapshot < ns[|ns| - 1].at then 1 else 0
  }

  lemma {:induction false} DueUpdate(ns: seq<NotifierPc>, n: nat, x: NotifierPc, snapshot: nat)
    requires n < |ns|
    ensures Due(ns[n := x], snapshot) == Due(ns, snapshot)
              - (if ns[n].Owing? && snapshot < ns[n].at then 1 else 0)
              + if x.Owing? && snapshot < x.at then 1 else 0
    decreases |ns|
  {
    var m := |ns| - 1;
    if n < m {
      DueUpdate(ns[..m], n, x, snapshot);
      assert ns[n := x][..m] == ns[..m][n := x];
    } else {
      assert ns[n := x][..m] == ns[..m];
    }
  }

  predicate Parked(w: WaiterPc) { w.Checked? || w.Asleep? }

  /** Registrations are counted exactly, and the bit says whether there are any. */
  ghost predicate Counted(s: State) {
    s.registered == In(s.waiters) && s.bit == (0 < s.registered)
  }

  ghost predicate Mutex(s: State) {
    && (forall w :: 0 <= w < |s.waiters| && s.waiters[w].Checked? ==> s.held && s.holder == w)
    && (s.held ==> s.holder < |s.waiters| && s.waiters[s.holder].Checked?)
  }

  ghost predicate Snapshots(s: State) {
    && (forall w :: 0 <= w < |s.waiters| && (s.waiters[w].Registered? || Parked(s.waiters[w])) ==>
          s.waiters[w].snapshot <= s.count)
    && s.lastAll <= s.count
    && (forall n :: 0 <= n < |s.notifiers| && s.notifiers[n].Owing? ==> s.notifiers[n].at <= s.count)
  }

  /** A completed notification of all waiters predates every parked waiter. */
  ghost predicate AllDone(s: State) {
    && s.doneAll <= s.count
    && forall w :: 0 <= w < |s.waiters| && Parked(s.waiters[w]) ==> s.doneAll <= s.waiters[w].snapshot
  }

  /** A parked waiter that predates the latest notification of all is still owed it. */
  ghost predicate AllOwed(s: State) {
    forall w :: 0 <= w < |s.waiters| && Parked(s.waiters[w]) && s.waiters[w].snapshot < s.lastAll ==>
      s.lastBy < |s.notifiers| && s.notifiers[s.lastBy] == Owing(true, s.lastAll)
  }

  /** Every notification since a parked waiter's last look has woken some waiter or
      is still about to signal. */
  ghost predicate OneOwed(s: State) {
    forall w :: 0 <= w < |s.waiters| && Parked(s.waiters[w]) ==>
      && s.waiters[w].before <= s.wakes
      && s.count - s.waiters[w].snapshot <= Due(s.notifiers, s.waiters[w].snapshot) + (s.wakes - s.waiters[w].before)
  }

  ghost predicate Inv(s: State) { Counted(s) && Mutex(s) && Snapshots(s) && AllOwed(s) && AllDone(s) && OneOwed(s) }

  lemma StepKeepsCounted(s: State, step: Step)
    requires Counted(s) && Enabled(s, step)
    ensures Counted(Apply(s, step))
  {
    match step
    case Prepare(w) => InUpdate(s.waiters, w, Registered(s.count));
    case Remove(w) => InUpdate(s.waiters, w, Out);
    case RemoveLast(w) => InUpdate(s.waiters, w, Out);
    case CheckCurrent(w) => InUpdate(s.waiters, w, Checked(s.waiters[w].snapshot, s.wakes));
    case Sleep(w) => InUpdate(s.waiters, w, Asleep(s.waiters[w].snapshot, s.waiters[w].before));
    case Stray(w) => InUpdate(s.waiters, w, Waking);
    case SignalOne(n, w) => InUpdate(s.waiters, w, Waking);
    case SignalAll(n) => InWakeAll(s.waiters);
    case _ =>
  }

  lemma StepKeepsMutex(s: State, step: Step)
    requires Mutex(s) && Enabled(s, step)
    ensures Mutex(Apply(s, step))
  {
  }

  lemma StepKeepsSnapshots(s: State, step: Step)
    requires Snapshots(s) && Enabled(s, step)
    ensures Snapshots(Apply(s, step))
  {
  }

  lemma {:induction false} RegisteredIsIn(ws: seq<WaiterPc>, w: nat)
    requires w < |ws| && !ws[w].Out?
    ensures 0 < In(ws)
    decreases |ws|
  {
    if w < |ws| - 1 {
      RegisteredIsIn(ws[..|ws| - 1], w);
    }
  }

  lemma StepKeepsAllOwed(s: State, step: Step)
    requires Counted(s) && Mutex(s) && Snapshots(s) && AllOwed(s) && Enabled(s, step)
    ensures AllOwed(Apply(s, step))
  {
    hide In, WakeAll;
  }

  lemma StepKeepsAllDone(s: State, step: Step)
    requires Mutex(s) && Snapshots(s) && AllDone(s) && Enabled(s, step)
    ensures AllDone(Apply(s, step))
  {
  }

  lemma StepKeepsOneOwed(s: State, step: Step)
    requires Counted(s) && Mutex(s) && Snapshots(s) && OneOwed(s) && Enabled(s, step)
    ensures OneOwed(Apply(s, step))
  {
    var t := Apply(s, step);
    forall w | 0 <= w < |t.waiters| && Parked(t.waiters[w])
      ensures t.waiters[w].before <= t.wakes
      ensures t.count - t.waiters[w].snapshot <= Due(t.notifiers, t.waiters[w].snapshot) + (t.wakes - t.waiters[w].before)
    {
      var snapshot := t.waiters[w].snapshot;
      match step
      case Notify(n, all) => DueUpdate(s.notifiers, n, Owing(all, s.count + 1), snapshot);
      case NotifyNobody(_, _) => RegisteredIsIn(s.waiters, w);
      case SignalOne(n, _) => DueUpdate(s.notifiers, n, Resting, snapshot);
      case SignalAll(n) => DueUpdate(s.notifiers, n, Resting, snapshot);
      case SignalNobody(n) => DueUpdate(s.notifiers, n, Resting, snapshot);
      case _ =>
    }
  }

  lemma StepKeepsInv(s: State, step: Step)
    requires Inv(s) && Enabled(s, step)
    ensures Inv(Apply(s, step))
  {
    hide Counted, Mutex, Snapshots, AllOwed, AllDone, OneOwed, Apply, Enabled;
    StepKeepsCounted(s, step);
    StepKeepsMutex(s, step);
    StepKeepsSnapshots(s, step);
    StepKeepsAllOwed(s, step);
    StepKeepsAllDone(s, step);
    StepKeepsOneOwed(s, step);
  }

  lemma {:induction false} NobodyIn(ws: seq<WaiterPc>)
    requires forall w :: 0 <= w < |ws| ==> ws[w] == Out
    ensures In(ws) == 0
    decreases |ws|
  {
    if ws != [] {
      NobodyIn(ws[..|ws| - 1]);
    }
  }

  lemma {:induction false} RunInv(run: seq<State>, k: nat)
    requires IsRun(run) && k < |run|
    ensures Inv(run[k])
    decreases k
  {
    hide Apply, Enabled;
    if k == 0 {
      NobodyIn(run[0].waiters);
    } else {
      RunInv(run, k - 1);
      assert Next(run[k - 1], run[k - 1 + 1]);
      var step :| Enabled(run[k - 1], step) && run[k] == Apply(run[k - 1], step);
      StepKeepsInv(run[k - 1], step);
    }
  }

  /** Once any notification of all waiters has run its course, no waiter that had
      registered before it is asleep, whatever later notifications are under way. */
  lemma NotifyAllReachesEverySleeper(run: seq<State>, i: nat, k: nat, n: nat, w: nat)
    requires IsRun(run) && i < k < |run| && n < |run[i].notifiers| && n < |run[i + 1].notifiers|
    requires run[i].notifiers[n].Owing? && run[i].notifiers[n].all && run[i + 1].notifiers[n].Resting?
    requires w < |run[k].waiters| && run[k].waiters[w].Asleep?
    ensures run[i].notifiers[n].at <= run[k].waiters[w].snapshot
  {
    hide Inv;
    assert Next(run[i], run[i + 1]);
    var step :| Enabled(run[i], step) && run[i + 1] == Apply(run[i], step);
    DoneGrows(run, i + 1, k);
    ParkedAfterDone(run, k, w);
  }

  lemma ParkedAfterDone(run: seq<State>, k: nat, w: nat)
    requires IsRun(run) && k < |run| && w < |run[k].waiters| && run[k].waiters[w].Asleep?
    ensures run[k].doneAll <= run[k].waiters[w].snapshot
  {
    RunInv(run, k);
  }

  lemma {:induction false} DoneGrows(run: seq<State>, i: nat, k: nat)
    requires IsRun(run) && i <= k < |run|
    ensures run[i].doneAll <= run[k].doneAll
    decreases k
  {
    if i < k {
      DoneGrows(run, i, k - 1);
      assert Next(run[k - 1], run[k - 1 + 1]);
    }
  }

  /** A sleeper that the latest notification of all has not reached yet is about to
      be signaled: its notifier's next step is not blocked, and wakes it. */
  lemma NotifyAllIsOnItsWay(run: seq<State>, k: nat, w: nat)
    requires IsRun(run) && k < |run| && w < |run[k].waiters| && run[k].waiters[w].Asleep? && !run[k].held
    requires run[k].waiters[w].snapshot < run[k].lastAll
    ensures Enabled(run[k], SignalAll(run[k].lastBy))
    ensures Apply(run[k], SignalAll(run[k].lastBy)).waiters[w].Waking?
  {
    RunInv(run, k);
  }

  /** No notification is lost among several waiters: those since a sleeper's last
      look have each woken somebody, or their signal is still due. */
  lemma NotificationsWakeOrAreDue(run: seq<State>, k: nat, w: nat)
    requires IsRun(run) && k < |run| && w < |run[k].waiters| && run[k].waiters[w].Asleep?
    ensures var s, x := run[k], run[k].waiters[w];
      s.count - x.snapshot <= Due(s.notifiers, x.snapshot) + (s.wakes - x.before)
  {
    RunInv(run, k);
  }

  /** The WAITING bit is set exactly while somebody is registered, so a notification
      that skips the mutex had nobody to wake. */
  lemma SkippedNotificationHadNoWaiter(run: seq<State>, k: nat, n: nat, all: bool, w: nat)
    requires IsRun(run) && k < |run| && Enabled(run[k], NotifyNobody(n, all)) && w < |run[k].waiters|
    ensures run[k].waiters[w].Out?
  {
    RunInv(run, k);
    if !run[k].waiters[w].Out? {
      RegisteredIsIn(run[k].waiters, w);
    }
  }
}
