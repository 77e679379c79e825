// What one turn of the dispatcher loop does to the runtime thread's own state and to the
// shared termination state.  Each function is one atomic piece of the turn.
module DispatcherCore {
  import opened Wrappers
  import opened Jobs
  import opened WorkQueue

  datatype Status = Running | Requested | Terminated

  datatype Core = Core(
    work: Work,
    terminated: bool,          // the runtime thread has finalised
    status: Status,            // shared with every clone of the controller
    reason: Option<string>)    // likewise

  const FRESH_CORE := Core(NO_WORK, false, Running, None)

  datatype LoopOutcome = Drained | Outstanding | Failed(fault: Fault)

  // A job's clock: its own from the moment it is built, or the one its sync call started.
  datatype Clock = Fresh(timeout: Option<nat>) | Inherited(deadline: Option<nat>)

  datatype Command =
    | StartJob(kind: JobKind, clock: Clock, watchdog: bool, refused: bool)
    | Immediate(checksStatus: bool)
    | TerminateCommand
    | ShutdownCommand

  datatype ExitReason = ByRequest | ByCommand | ByClosedChannel | ByShutdown

  const PENDING_WORK_TICK: nat := 1_000_000   // nanoseconds

  predicate Rejecting(c: Core) {
    c.terminated || c.status != Running
  }

  function Requesting(c: Core): Core {
    c.(status := if c.status == Running then Requested else c.status)
  }

  function WithReason(c: Core, text: string): Core {
    c.(reason := if c.reason.None? then Some(text) else c.reason)
  }

  function Finalised(c: Core): Core {
    if c.terminated then c else c.(terminated := true, status := Terminated)
  }

  function DeadlineOf(clock: Clock, now: nat): Option<nat> {
    match clock
    case Fresh(None) => None
    case Fresh(Some(timeout)) => Some(now + timeout)
    case Inherited(deadline) => deadline
  }

  // How long the loop may sleep with work in flight.
  function PendingWait(w: Work, now: nat): nat {
    if w.active.Some? && w.active.value.deadline.Some? then
      var d := w.active.value.deadline.value;
      var left := if d <= now then 0 else d - now;
      if left < PENDING_WORK_TICK then left else PENDING_WORK_TICK
    else PENDING_WORK_TICK
  }

  // 1. The event loop has been polled.  None: a fatal error restarts the turn.
  function LoopPolled(c: Core, outcome: LoopOutcome, fired: bool, now: nat): (Core, Option<bool>) {
    match outcome
    case Drained => (c, Some(true))
    case Outstanding => (c, Some(false))
    case Failed(f) =>
      var (error, finalises) := Translate(Raise(f), Rejecting(c), c.reason);
      var c1 := if finalises then Finalised(c) else c;
      if IndicatesTermination(error) then (c1, Some(true))
      else if c1.work.active.Some? then (c1.(work := Complete(c1.work, Err(error), fired, now)), None)
      else (c1, None)
  }

  // 2. The active job, if any, has been polled.
  function JobPolled(c: Core, ev: JobEvent, fired: bool, now: nat): Core {
    if c.work.active.None? then c
    else
      var p := PollJob(c.work.active.value, now, ev, Rejecting(c), c.reason);
      Noted(c, p).(work := PollActive(c.work, p, fired, now))
  }

  // What a poll does to the termination state.
  function Noted(c: Core, p: Polled): Core {
    var named := if p.expired then WithReason(c, "timed out") else c;
    if p.finalises then Finalised(named) else named
  }

  predicate MustAbort(c: Core) {
    Rejecting(c) && HasWork(c.work)
  }

  // 2b, and the two other places that abandon work: everything held is answered.
  function Aborted(c: Core, fired: set<nat>, now: nat): Core {
    c.(work := CancelAll(c.work, TerminatedError(c.reason), fired, now))
  }

  // 3. The freshly activated job's one un-waited turn.
  function GatePassed(c: Core): Core {
    c.(work := c.work.(justActivated := false))
  }

  function Submitted(c: Core, cmd: Command, now: nat): Core
    requires cmd.StartJob?
  {
    c.(work := Submit(c.work, cmd.kind, DeadlineOf(cmd.clock, now), cmd.watchdog, now))
  }

  // ---- the invariant every piece keeps ----

  ghost predicate CoreInv(c: Core) {
    WorkInv(c.work) && (c.terminated ==> c.status == Terminated)
  }

  lemma LoopPolledKeeps(c: Core, outcome: LoopOutcome, fired: bool, now: nat)
    requires CoreInv(c)
    ensures CoreInv(LoopPolled(c, outcome, fired, now).0)
  {
    if outcome.Failed? && c.work.active.Some? {
      var (error, _) := Translate(Raise(outcome.fault), Rejecting(c), c.reason);
      CompleteKeeps(c.work, Err(error), fired, now);
    }
  }

  lemma JobPolledKeeps(c: Core, ev: JobEvent, fired: bool, now: nat)
    requires CoreInv(c)
    ensures CoreInv(JobPolled(c, ev, fired, now))
  {
    if c.work.active.Some? {
      PollKeeps(c.work, now, ev, Rejecting(c), c.reason, fired);
    }
  }

  // Nothing but the work matters to the work's invariant.
  lemma SharedStateKeeps(c: Core, text: string)
    requires CoreInv(c)
    ensures CoreInv(Requesting(c)) && CoreInv(WithReason(c, text)) && CoreInv(Finalised(c))
  {
  }

  lemma AbortedKeeps(c: Core, fired: set<nat>, now: nat)
    requires CoreInv(c)
    ensures CoreInv(Aborted(c, fired, now))
    ensures !HasWork(Aborted(c, fired, now).work) && |Aborted(c, fired, now).work.answers| == c.work.submitted
  {
    CancelKeeps(c.work, TerminatedError(c.reason), fired, now);
  }

  lemma SubmittedKeeps(c: Core, cmd: Command, now: nat)
    requires CoreInv(c) && cmd.StartJob?
    ensures CoreInv(Submitted(c, cmd, now))
    ensures |Held(Submitted(c, cmd, now).work)| == |Held(c.work)| + 1
  {
    SubmitKeeps(c.work, cmd.kind, DeadlineOf(cmd.clock, now), cmd.watchdog, now);
  }

  lemma GatePassedKeeps(c: Core)
    requires CoreInv(c)
    ensures CoreInv(GatePassed(c))
    ensures Held(GatePassed(c).work) == Held(c.work)
  {
    assert Held(GatePassed(c).work) == Held(c.work);
  }
}
