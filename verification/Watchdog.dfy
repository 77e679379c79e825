// The deadline watchdog: a thread that waits on a condition variable until it is cancelled or
// its deadline arrives, raced against the runtime thread that cancels and joins it.
// A `Step` is one atomic action of either thread, of V8's other terminators, or of the clock.
module Watchdog {
  import opened Wrappers

  datatype Holder = Free | HeldByWatchdog | HeldByOwner

  datatype ThreadPc =
    | NotStarted
    | WantsLock
    | AtTop               // lock held, about to read `cancelled`
    | AtClock             // lock held, `cancelled` was false
    | Waiting             // lock released, asleep on the condition variable
    | MustTerminate       // `fired` set, lock dropped, V8 not yet told
    | Ended

  datatype OwnerPc =
    | Calling             // the guarded call is still running
    | WantsCancel
    | Setting             // lock held
    | MustSignal          // lock dropped, condition variable not yet signalled
    | Joining
    | Joined
    | Resolved

  datatype Race = Race(
    thread: ThreadPc,
    owner: OwnerPc,
    lock: Holder,
    cancelled: bool,
    signalled: bool,              // a signal has reached the sleeping watchdog
    fired: bool,
    verdict: Option<bool>,        // what the owner read from `fired`
    latch: bool,                  // V8's pending-termination latch
    own: bool,                    // ... pending because of this watchdog
    now: nat,
    duration: nat,
    deadline: Option<nat>,
    terminations: nat,            // terminate_execution calls by this watchdog
    cancelledAt: Option<nat>,
    firedAt: Option<nat>)

  function Spawned(duration: nat, now: nat, latch: bool): Race {
    Race(NotStarted, Calling, Free, false, false, false, None, latch, false, now, duration, None, 0, None, None)
  }

  datatype Step =
    | Start | Lock | ReadCancelled | ReadClock | Sleep | WakeUp | SpuriousWake | TellV8
    | CallReturns | OwnerLock | SetCancelled | Signal | Join | Resolve
    | OthersTerminate | Advance(dt: nat)

  predicate Enabled(r: Race, step: Step) {
    match step
    case Start => r.thread.NotStarted?
    case Lock => r.thread.WantsLock? && r.lock.Free?
    case ReadCancelled => r.thread.AtTop?
    case ReadClock => r.thread.AtClock? && r.deadline.Some? && r.deadline.value <= r.now
    case Sleep => r.thread.AtClock? && r.deadline.Some? && r.now < r.deadline.value
    case WakeUp => r.thread.Waiting? && (r.signalled || (r.deadline.Some? && r.deadline.value <= r.now))
    case SpuriousWake => r.thread.Waiting?
    case TellV8 => r.thread.MustTerminate?
    case CallReturns => r.owner.Calling?
    case OwnerLock => r.owner.WantsCancel? && r.lock.Free?
    case SetCancelled => r.owner.Setting?
    case Signal => r.owner.MustSignal?
    case Join => r.owner.Joining? && r.thread.Ended?
    case Resolve => r.owner.Joined?
    case OthersTerminate => true
    case Advance(_) => true
  }

  function Apply(r: Race, step: Step): Race
    requires Enabled(r, step)
  {
    match step
    case Start => r.(thread := WantsLock, deadline := Some(r.now + r.duration))
    case Lock => r.(thread := AtTop, lock := HeldByWatchdog)
    case ReadCancelled =>
      if r.cancelled then r.(thread := Ended, lock := Free) else r.(thread := AtClock)
    case ReadClock => r.(thread := MustTerminate, lock := Free, fired := true, firedAt := Some(r.now))
    case Sleep => r.(thread := Waiting, lock := Free, signalled := false)
    case WakeUp => r.(thread := WantsLock)
    case SpuriousWake => r.(thread := WantsLock)
    case TellV8 => r.(thread := Ended, latch := true, own := true, terminations := r.terminations + 1)
    case CallReturns => r.(owner := WantsCancel)
    case OwnerLock => r.(owner := Setting, lock := HeldByOwner)
    case SetCancelled => r.(owner := MustSignal, lock := Free, cancelled := true, cancelledAt := Some(r.now))
    case Signal => r.(owner := Joining, signalled := true)
    case Join => r.(owner := Joined, verdict := Some(r.fired))
    // Clearing the latch discards every pending termination, including other threads'.
    case Resolve =>
      if r.verdict == Some(true) then r.(owner := Resolved, latch := false, own := false) else r.(owner := Resolved)
    case OthersTerminate => r.(latch := true)
    case Advance(dt) => r.(now := r.now + dt)
  }

  predicate Legal(r: Race, run: seq<Step>)
    decreases |run|
  {
    run == [] || (Enabled(r, run[0]) && Legal(Apply(r, run[0]), run[1..]))
  }

  function Exec(r: Race, run: seq<Step>): Race
    requires Legal(r, run)
    decreases |run|
  {
    if run == [] then r else Exec(Apply(r, run[0]), run[1..])
  }

  ghost predicate LockOwned(r: Race) {
    && (r.lock.HeldByWatchdog? <==> r.thread.AtTop? || r.thread.AtClock?)
    && (r.lock.HeldByOwner? <==> r.owner.Setting?)
  }

  ghost predicate FiresOnce(r: Race) {
    && (r.fired <==> r.firedAt.Some?)
    && (r.fired ==> r.thread.MustTerminate? || r.thread.Ended?)
    && (r.thread.MustTerminate? ==> r.fired && r.terminations == 0)
    && (r.thread.Ended? ==> r.fired || r.cancelled)
    && (r.terminations == if r.fired && r.thread.Ended? then 1 else 0)
    && (r.own ==> r.terminations == 1 && r.latch && !r.owner.Resolved?)
    && (r.terminations == 1 && !r.owner.Resolved? ==> r.own)
  }

  ghost predicate CancelSeen(r: Race) {
    && (r.cancelled <==> r.cancelledAt.Some?)
    && (r.cancelled <==> r.owner.MustSignal? || r.owner.Joining? || r.owner.Joined? || r.owner.Resolved?)
    && (r.thread.AtClock? ==> !r.cancelled)
    && (r.thread.NotStarted? <==> r.deadline.None?)
    && (r.cancelledAt.Some? ==> r.cancelledAt.value <= r.now)
    && (r.firedAt.Some? ==> r.deadline.Some? && r.deadline.value <= r.firedAt.value <= r.now)
    // A firing precedes the cancel that the owner gets in.
    && (r.firedAt.Some? && r.cancelledAt.Some? ==> r.firedAt.value <= r.cancelledAt.value)
    // A sleeping watchdog that was cancelled has been signalled or is about to be.
    && (r.cancelled && r.thread.Waiting? ==> r.signalled || r.owner.MustSignal?)
  }

  ghost predicate JoinedAfterEnd(r: Race) {
    && (r.owner.Joined? || r.owner.Resolved? ==> r.thread.Ended? && r.verdict == Some(r.fired))
    && (!r.owner.Joined? && !r.owner.Resolved? ==> r.verdict == None)
  }

  ghost predicate Inv(r: Race) {
    LockOwned(r) && FiresOnce(r) && CancelSeen(r) && JoinedAfterEnd(r)
  }

  lemma StepKeepsLock(r: Race, step: Step)
    requires Inv(r) && Enabled(r, step)
    ensures LockOwned(Apply(r, step)) && JoinedAfterEnd(Apply(r, step))
  {
  }

  lemma StepKeepsFiring(r: Race, step: Step)
    requires Inv(r) && Enabled(r, step)
    ensures FiresOnce(Apply(r, step))
  {
  }

  lemma StepKeepsCancel(r: Race, step: Step)
    requires Inv(r) && Enabled(r, step)
    ensures CancelSeen(Apply(r, step))
  {
  }

  lemma StepKeeps(r: Race, step: Step)
    requires Inv(r) && Enabled(r, step)
    ensures Inv(Apply(r, step))
  {
    StepKeepsLock(r, step);
    StepKeepsFiring(r, step);
    StepKeepsCancel(r, step);
  }

  lemma {:induction false} RunKeeps(r: Race, run: seq<Step>)
    requires Inv(r) && Legal(r, run)
    ensures Inv(Exec(r, run))
    decreases |run|
  {
    if run != [] {
      StepKeeps(r, run[0]);
      RunKeeps(Apply(r, run[0]), run[1..]);
    }
  }

  // After the watchdog is resolved the owner's verdict is exact: it fired if and only if it
  // called terminate_execution, once.  None of its terminations is pending, and a cancel set
  // before the deadline means it never fired.
  lemma ResolvedIsExact(duration: nat, now: nat, latch: bool, run: seq<Step>)
    requires Legal(Spawned(duration, now, latch), run)
    ensures var r := Exec(Spawned(duration, now, latch), run);
      && (r.owner.Resolved? ==>
            && r.verdict == Some(r.terminations == 1)
            && r.terminations <= 1
            && !r.own)
      && (r.cancelledAt.Some? && r.deadline.Some? && r.cancelledAt.value < r.deadline.value ==>
            !r.fired && r.terminations == 0)
      && (r.fired ==> r.deadline.Some? && r.deadline.value <= r.now)
  {
    RunKeeps(Spawned(duration, now, latch), run);
  }

  // ---- its deadline is its duration, counted from the moment its thread starts ----

  function StartedAt(r: Race, run: seq<Step>): Option<nat>
    requires Legal(r, run)
    decreases |run|
  {
    if run == [] then None
    else if run[0].Start? then Some(r.now)
    else StartedAt(Apply(r, run[0]), run[1..])
  }

  lemma StepsAfterStart(r: Race, step: Step)
    requires Inv(r) && Enabled(r, step) && r.deadline.Some?
    ensures !step.Start? && Apply(r, step).deadline == r.deadline
  {
  }

  lemma StepsRise(r: Race, step: Step)
    requires Enabled(r, step)
    ensures r.now <= Apply(r, step).now
  {
  }

  lemma {:induction false} DeadlineStays(r: Race, run: seq<Step>)
    requires Inv(r) && Legal(r, run) && r.deadline.Some?
    ensures Exec(r, run).deadline == r.deadline && StartedAt(r, run) == None
    decreases |run|
  {
    if run != [] {
      StepKeeps(r, run[0]);
      StepsAfterStart(r, run[0]);
      DeadlineStays(Apply(r, run[0]), run[1..]);
    }
  }

  lemma {:induction false} ClockRises(r: Race, run: seq<Step>)
    requires Legal(r, run)
    ensures StartedAt(r, run).Some? ==> r.now <= StartedAt(r, run).value
    ensures r.now <= Exec(r, run).now
    decreases |run|
  {
    if run != [] {
      StepsRise(r, run[0]);
      ClockRises(Apply(r, run[0]), run[1..]);
    }
  }

  lemma {:induction false} DeadlineIsSetAtStart(r: Race, run: seq<Step>)
    requires Inv(r) && Legal(r, run) && r.deadline.None?
    ensures match StartedAt(r, run)
      case None => Exec(r, run).deadline == None
      case Some(at) => Exec(r, run).deadline == Some(at + r.duration)
    decreases |run|
  {
    if run != [] {
      StepKeeps(r, run[0]);
      if run[0].Start? {
        DeadlineStays(Apply(r, run[0]), run[1..]);
      } else {
        DeadlineIsSetAtStart(Apply(r, run[0]), run[1..]);
      }
    }
  }

  // A watchdog that fired did so its whole duration after its thread started, at the earliest:
  // never sooner than that after it was spawned.
  lemma FiresAfterItsDuration(duration: nat, now: nat, latch: bool, run: seq<Step>)
    requires Legal(Spawned(duration, now, latch), run)
    ensures var r := Exec(Spawned(duration, now, latch), run); var started := StartedAt(Spawned(duration, now, latch), run);
      r.fired ==> started.Some? && r.firedAt.Some? && now + duration <= started.value + duration <= r.firedAt.value
  {
    RunKeeps(Spawned(duration, now, latch), run);
    DeadlineIsSetAtStart(Spawned(duration, now, latch), run);
    ClockRises(Spawned(duration, now, latch), run);
  }

  // Nothing of this watchdog arrives later: once resolved, every continuation leaves its
  // termination count, verdict and pending mark as they are.
  lemma {:induction false} NothingArrivesLater(r: Race, run: seq<Step>)
    requires Inv(r) && r.owner.Resolved? && Legal(r, run)
    ensures var s := Exec(r, run);
      s.terminations == r.terminations && s.verdict == r.verdict && s.fired == r.fired && !s.own && s.owner.Resolved?
    decreases |run|
  {
    if run != [] {
      StepKeeps(r, run[0]);
      NothingArrivesLater(Apply(r, run[0]), run[1..]);
    }
  }

  // Resolving clears V8's latch exactly when the watchdog fired, and leaves the terminations of
  // others alone when it did not.
  lemma ResolveClearsIffFired(r: Race)
    requires Inv(r) && Enabled(r, Resolve)
    ensures Apply(r, Resolve).latch == if r.fired then false else r.latch
  {
  }

  // A watchdog that fired has reached V8, whose latch is set until the owner resolves it.
  lemma FiringReachesV8(r: Race)
    requires Inv(r) && r.fired && r.thread.Ended? && !r.owner.Resolved?
    ensures r.latch
  {
  }

  // Whatever is pending after that was asked for by somebody else, since.
  lemma {:induction false} PendingIsOthers(r: Race, run: seq<Step>)
    requires Inv(r) && r.owner.Resolved? && !r.latch && Legal(r, run)
    ensures Exec(r, run).latch ==> OthersTerminate in run
    decreases |run|
  {
    if run != [] && !run[0].OthersTerminate? {
      StepKeeps(r, run[0]);
      PendingIsOthers(Apply(r, run[0]), run[1..]);
    }
  }

  // Steps of a cancelled watchdog left before its thread ends.
  function StepsToEnd(r: Race): nat {
    match r.thread
    case NotStarted => 4
    case Waiting => 4
    case WantsLock => 3
    case AtTop => 1
    case AtClock => 2
    case MustTerminate => 1
    case Ended => 0
  }

  predicate ByWatchdog(step: Step) {
    step.Start? || step.Lock? || step.ReadCancelled? || step.ReadClock? || step.Sleep? || step.WakeUp?
    || step.SpuriousWake? || step.TellV8?
  }

  // The join costs a wakeup, not a sleep: a cancelled watchdog needs at most four more steps,
  // nobody can add to them, and it can always take the next one without waiting for its deadline
  // or a spurious wake, at the latest when the owner has signalled.
  lemma CancelledWatchdogEnds(r: Race, step: Step)
    requires Inv(r) && r.cancelled && Enabled(r, step)
    ensures StepsToEnd(r) <= 4
    ensures ByWatchdog(step) ==> StepsToEnd(Apply(r, step)) < StepsToEnd(r)
    ensures !ByWatchdog(step) ==> StepsToEnd(Apply(r, step)) == StepsToEnd(r)
    ensures !r.thread.Ended? && !r.owner.MustSignal? ==>
      exists own :: ByWatchdog(own) && !own.SpuriousWake? && Enabled(r, own)
  {
    match r.thread
    case NotStarted => assert Enabled(r, Start);
    case WantsLock => assert Enabled(r, Lock);
    case AtTop => assert Enabled(r, ReadCancelled);
    case AtClock => assert false;
    case Waiting => assert r.owner.MustSignal? || Enabled(r, WakeUp);
    case MustTerminate => assert Enabled(r, TellV8);
    case Ended =>
  }

  // ---- it does fire ----

  // Past its deadline, not cancelled, not yet fired.
  predicate Overdue(r: Race) {
    !r.cancelled && !r.fired && r.deadline.Some? && r.deadline.value <= r.now
  }

  function StepsToFire(r: Race): nat {
    match r.thread
    case Waiting => 4
    case WantsLock => 3
    case AtTop => 2
    case AtClock => 1
    case _ => 0
  }

  // An overdue watchdog can always go on, unless the owner holds the lock to cancel it.
  lemma OverdueGoesOn(r: Race) returns (own: Step)
    requires Inv(r) && Overdue(r) && !r.owner.Setting?
    ensures ByWatchdog(own) && !own.SpuriousWake? && Enabled(r, own)
  {
    own := match r.thread
      case Waiting => WakeUp
      case WantsLock => Lock
      case AtTop => ReadCancelled
      case _ => ReadClock;
  }

  lemma OverdueStep(r: Race, step: Step)
    requires Inv(r) && Overdue(r) && Enabled(r, step)
    ensures var s := Apply(r, step);
      s.fired || s.cancelled ||
      (Overdue(s) && if ByWatchdog(step) then StepsToFire(s) < StepsToFire(r) else StepsToFire(s) == StepsToFire(r))
  {
  }

  // Once its thread has started, nothing but a cancel keeps a watchdog from being overdue in time.
  lemma BecomesOverdue(r: Race) returns (wait: Step)
    requires Inv(r) && r.deadline.Some? && !r.cancelled && !r.fired
    ensures wait.Advance? && Overdue(Apply(r, wait))
  {
    wait := Advance(if r.deadline.value <= r.now then 0 else r.deadline.value - r.now);
  }

  function OwnSteps(run: seq<Step>): nat {
    if run == [] then 0 else (if ByWatchdog(run[0]) then 1 else 0) + OwnSteps(run[1..])
  }

  lemma {:induction false} FlagsStay(r: Race, run: seq<Step>)
    requires Legal(r, run)
    ensures (r.fired ==> Exec(r, run).fired) && (r.cancelled ==> Exec(r, run).cancelled)
    decreases |run|
  {
    if run != [] {
      FlagsStay(Apply(r, run[0]), run[1..]);
    }
  }

  // Four steps of its own, among any steps of the others, and a watchdog past its deadline has
  // fired, unless it was cancelled before.
  lemma {:induction false} OverdueFires(r: Race, run: seq<Step>)
    requires Inv(r) && Overdue(r) && Legal(r, run)
    ensures OwnSteps(run) >= StepsToFire(r) ==> Exec(r, run).fired || Exec(r, run).cancelled
    ensures StepsToFire(r) <= 4
    decreases |run|
  {
    if run != [] {
      var s := Apply(r, run[0]);
      StepKeeps(r, run[0]);
      OverdueStep(r, run[0]);
      if s.fired || s.cancelled {
        FlagsStay(s, run[1..]);
      } else {
        OverdueFires(s, run[1..]);
      }
    }
  }
}
