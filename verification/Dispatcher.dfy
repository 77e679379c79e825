// The dispatcher object of the runtime thread and the termination controller it shares with
// every other thread.  `Moment` is everything one turn of the loop learns from outside: V8,
// the promise, the channel, the clock, and what other threads do to the shared status and
// reason between any two parts of the turn.
module Dispatcher {
  import opened Wrappers
  import opened Jobs
  import opened WorkQueue
  import opened DispatcherCore

  datatype Point = BeforeLoop | BeforeJob | BeforeCheck | BeforeCommand | DuringCommand

  // Another thread stores a reason, requests termination, marks it forced, or any of these.
  datatype Outside = Outside(reason: Option<string>, requests: bool, forces: bool)

  datatype Selected = Arrived(cmd: Command) | Closed | Woken | TickElapsed

  datatype Moment = Moment(
    loop: LoopOutcome,
    job: JobEvent,
    fired: bool,               // the completed job's watchdog had fired
    firedJobs: set<nat>,       // ditto, for the jobs cancelled in this turn
    others: map<Point, Outside>,
    selected: Selected,
    syncSaysTerminated: bool,  // a synchronous call ended in "execution terminated"
    now: nat)

  datatype Turn = Stay | Leave(why: ExitReason)

  // ---- the turn as a function ----

  // A termination is forced only after it was requested.
  function Disturbed(c: Core, o: Outside): Core {
    var named := if o.reason.Some? then WithReason(c, o.reason.value) else c;
    var requested := if o.requests then Requesting(named) else named;
    if o.forces && requested.status != Running then requested.(status := Terminated) else requested
  }

  function Interfered(c: Core, m: Moment, p: Point): Core {
    if p in m.others then Disturbed(c, m.others[p]) else c
  }

  function CommandHandled(c: Core, cmd: Command, m: Moment): (Core, Turn) {
    match cmd
    case StartJob(_, _, _, refused) =>
      if Rejecting(c) || refused then (c, Stay)
      else (Submitted(Interfered(c, m, DuringCommand), cmd, m.now), Stay)
    case Immediate(checksStatus) =>
      if checksStatus && Rejecting(c) then (c, Stay)
      else
        var during := Interfered(c, m, DuringCommand);
        (if m.syncSaysTerminated && Rejecting(during) then Finalised(during) else during, Stay)
    case TerminateCommand => (Finalised(Aborted(c, m.firedJobs, m.now)), Leave(ByCommand))
    case ShutdownCommand => (c, Leave(ByShutdown))
  }

  function SelectionHandled(c: Core, m: Moment): (Core, Turn) {
    match m.selected
    case Arrived(cmd) => CommandHandled(Interfered(c, m, BeforeCommand), cmd, m)
    case Closed =>
      var named := WithReason(c, "Command channel closed unexpectedly");
      (Finalised(Aborted(named, m.firedJobs, m.now)), Leave(ByClosedChannel))
    case Woken => (c, Stay)
    case TickElapsed => (c, Stay)
  }

  // The active job's poll, and whatever happens around it.
  function JobTaken(c: Core, m: Moment): Core {
    Interfered(JobPolled(Interfered(c, m, BeforeJob), m.job, m.fired, m.now), m, BeforeCheck)
  }

  // The rest of the turn: abandon the work, or take another turn at once, or park.
  function Settled(c: Core, m: Moment): (Core, Turn) {
    if MustAbort(c) then (Finalised(Aborted(c, m.firedJobs, m.now)), Leave(ByRequest))
    else if c.work.justActivated then (GatePassed(c), Stay)
    else SelectionHandled(c, m)
  }

  function TurnTaken(c: Core, m: Moment): (Core, Turn) {
    var (c1, drained) := LoopPolled(Interfered(c, m, BeforeLoop), m.loop, m.fired, m.now);
    if drained.None? then (c1, Stay) else Settled(JobTaken(c1, m), m)
  }

  function RunOf(c: Core, script: seq<Moment>): (Core, Option<ExitReason>)
    decreases |script|
  {
    if script == [] then (c, None)
    else
      var (c1, turn) := TurnTaken(c, script[0]);
      match turn
      case Leave(why) => (c1, Some(why))
      case Stay => RunOf(c1, script[1..])
  }

  // ---- what every run keeps ----

  // A loop that ended for any reason but a shutdown has answered every job and finalised.
  ghost predicate LeftClean(c: Core, turn: Turn) {
    turn.Leave? && turn.why != ByShutdown ==> |c.work.answers| == c.work.submitted && c.terminated
  }

  lemma InterferedKeeps(c: Core, m: Moment, p: Point)
    requires CoreInv(c)
    ensures CoreInv(Interfered(c, m, p))
  {
    assert Interfered(c, m, p).work == c.work;
  }

  lemma AbandonKeeps(c: Core, m: Moment)
    requires CoreInv(c)
    ensures CoreInv(Finalised(Aborted(c, m.firedJobs, m.now)))
    ensures forall why :: LeftClean(Finalised(Aborted(c, m.firedJobs, m.now)), Leave(why))
  {
    AbortedKeeps(c, m.firedJobs, m.now);
    SharedStateKeeps(Aborted(c, m.firedJobs, m.now), "");
  }

  lemma CommandKeeps(c: Core, cmd: Command, m: Moment)
    requires CoreInv(c)
    ensures CoreInv(CommandHandled(c, cmd, m).0)
    ensures LeftClean(CommandHandled(c, cmd, m).0, CommandHandled(c, cmd, m).1)
  {
    match cmd
    case StartJob(_, _, _, _) =>
      InterferedKeeps(c, m, DuringCommand);
      SubmittedKeeps(Interfered(c, m, DuringCommand), cmd, m.now);
    case Immediate(_) =>
      InterferedKeeps(c, m, DuringCommand);
      SharedStateKeeps(Interfered(c, m, DuringCommand), "");
    case TerminateCommand => AbandonKeeps(c, m);
    case ShutdownCommand =>
  }

  lemma SelectionKeeps(c: Core, m: Moment)
    requires CoreInv(c)
    ensures CoreInv(SelectionHandled(c, m).0)
    ensures LeftClean(SelectionHandled(c, m).0, SelectionHandled(c, m).1)
  {
    match m.selected
    case Arrived(cmd) =>
      InterferedKeeps(c, m, BeforeCommand);
      CommandKeeps(Interfered(c, m, BeforeCommand), cmd, m);
    case Closed =>
      SharedStateKeeps(c, "Command channel closed unexpectedly");
      AbandonKeeps(WithReason(c, "Command channel closed unexpectedly"), m);
    case Woken =>
    case TickElapsed =>
  }

  lemma JobTakenKeeps(c: Core, m: Moment)
    requires CoreInv(c)
    ensures CoreInv(JobTaken(c, m))
  {
    InterferedKeeps(c, m, BeforeJob);
    JobPolledKeeps(Interfered(c, m, BeforeJob), m.job, m.fired, m.now);
    InterferedKeeps(JobPolled(Interfered(c, m, BeforeJob), m.job, m.fired, m.now), m, BeforeCheck);
  }

  // A turn abandons the work exactly when a termination was asked for and there is work.
  lemma AbandonsExactlyWhenAsked(c: Core, m: Moment)
    requires c.terminated ==> c.status == Terminated
    ensures Settled(c, m).1 == Leave(ByRequest) <==> c.status != Running && Held(c.work) != []
  {
    assert HasWork(c.work) <==> Held(c.work) != [];
  }

  lemma SettledKeeps(c: Core, m: Moment)
    requires CoreInv(c)
    ensures CoreInv(Settled(c, m).0)
    ensures LeftClean(Settled(c, m).0, Settled(c, m).1)
  {
    if MustAbort(c) {
      AbandonKeeps(c, m);
    } else {
      GatePassedKeeps(c);
      SelectionKeeps(c, m);
    }
  }

  lemma TurnKeeps(c: Core, m: Moment)
    requires CoreInv(c)
    ensures CoreInv(TurnTaken(c, m).0)
    ensures LeftClean(TurnTaken(c, m).0, TurnTaken(c, m).1)
  {
    InterferedKeeps(c, m, BeforeLoop);
    LoopPolledKeeps(Interfered(c, m, BeforeLoop), m.loop, m.fired, m.now);
    var (c1, drained) := LoopPolled(Interfered(c, m, BeforeLoop), m.loop, m.fired, m.now);
    if drained.Some? {
      JobTakenKeeps(c1, m);
      SettledKeeps(JobTaken(c1, m), m);
    }
  }

  // Over any run from a fresh dispatcher: answered jobs, the active one and the queue are the
  // submitted jobs in submission order; every exit but a shutdown has answered them all.
  lemma {:induction false} RunAnswersInOrder(c: Core, script: seq<Moment>)
    requires CoreInv(c)
    ensures CoreInv(RunOf(c, script).0)
    ensures RunOf(c, script).1.Some? ==> LeftClean(RunOf(c, script).0, Leave(RunOf(c, script).1.value))
    decreases |script|
  {
    if script != [] {
      TurnKeeps(c, script[0]);
      RunAnswersInOrder(TurnTaken(c, script[0]).0, script[1..]);
    }
  }

  // ---- the shared controller ----

  class TerminationController {
    var status: Status
    var reason: Option<string>
    var permit: bool           // the dispatcher's stored wake permit

    constructor ()
      ensures status == Running && reason == None && !permit
    {
      status, reason, permit := Running, None, false;
    }

    // True for the first request only.  The dispatcher is woken either way.
    method Request() returns (first: bool)
      modifies this
      ensures first <==> old(status) == Running
      ensures status != Running && (!first ==> status == old(status)) && (first ==> status == Requested)
      ensures permit && reason == old(reason)
    {
      first := status == Running;
      if first {
        status := Requested;
      }
      permit := true;
    }

    method EnsureReason(text: string)
      modifies this`reason
      ensures reason == if old(reason).None? then Some(text) else old(reason)
    {
      if reason.None? {
        reason := Some(text);
      }
    }

    // Also the force-kill's move: no acknowledgement is needed.
    method MarkTerminated() returns (changed: bool)
      modifies this`status
      ensures status == Terminated && (changed <==> old(status) != Terminated)
    {
      changed := status != Terminated;
      status := Terminated;
    }
  }

  // ---- the dispatcher ----

  class RuntimeDispatcher {
    var activeJob: Option<Job>
    var pendingJobs: seq<Job>
    var jobJustActivated: bool
    var terminated: bool
    var accepted: nat
    const termination: TerminationController
    ghost var answers: seq<Answer>
    ghost var starts: seq<Start>

    ghost function Contents(): Work
      reads this
    {
      Work(activeJob, pendingJobs, jobJustActivated, accepted, answers, starts)
    }

    ghost function State(): Core
      reads this, termination
    {
      Core(Contents(), terminated, termination.status, termination.reason)
    }

    constructor (controller: TerminationController)
      ensures termination == controller && Contents() == NO_WORK && !terminated
    {
      activeJob, pendingJobs, jobJustActivated := None, [], false;
      terminated, accepted, termination := false, 0, controller;
      answers, starts := [], [];
    }

    method PendingWorkWait(now: nat) returns (wait: nat)
      ensures wait <= PENDING_WORK_TICK
      ensures activeJob.Some? && activeJob.value.deadline.Some? && now <= activeJob.value.deadline.value ==>
        now + wait <= activeJob.value.deadline.value
      ensures wait < PENDING_WORK_TICK ==>
        activeJob.Some? && activeJob.value.deadline.Some? && activeJob.value.deadline.value <= now + wait
      ensures wait == PendingWait(Contents(), now)
    {
      wait := PENDING_WORK_TICK;
      if activeJob.Some? && activeJob.value.deadline.Some? {
        var d := activeJob.value.deadline.value;
        var left := if d <= now then 0 else d - now;
        if left < wait {
          wait := left;
        }
      }
    }

    method SubmitJob(cmd: Command, now: nat)
      requires cmd.StartJob?
      modifies this
      ensures State() == Submitted(old(State()), cmd, now)
    {
      var job := Job(accepted, cmd.kind, DeadlineOf(cmd.clock, now), cmd.watchdog, now, Init, false);
      if activeJob.None? {
        jobJustActivated := true;
        activeJob := Some(job);
      } else {
        pendingJobs := pendingJobs + [job];
      }
      accepted := accepted + 1;
    }

    // Answer the active job and promote the next one.
    method FinishActive(result: JobResult, fired: bool, now: nat)
      requires activeJob.Some?
      modifies this
      ensures State() == old(State()).(work := Complete(old(Contents()), result, fired, now))
    {
      answers := answers + [Reply(activeJob.value, result, fired, now)];
      activeJob := None;
      if pendingJobs != [] {
        jobJustActivated := true;
        activeJob := Some(Activated(pendingJobs[0], now));
        pendingJobs := pendingJobs[1..];
      }
    }

    method CancelAllJobs(error: RuntimeError, ghost fired: set<nat>, ghost now: nat)
      modifies this
      ensures State() == old(State()).(work := CancelAll(old(Contents()), error, fired, now))
    {
      if activeJob.Some? {
        answers := answers + [Reply(activeJob.value, Err(error), activeJob.value.id in fired, now)];
        activeJob := None;
      }
      ghost var all := answers + Replies(pendingJobs, Err(error), fired, now);
      while pendingJobs != []
        invariant this.activeJob == None && jobJustActivated == old(jobJustActivated) && terminated == old(terminated)
        invariant accepted == old(accepted) && starts == old(starts)
        invariant answers + Replies(pendingJobs, Err(error), fired, now) == all
        decreases |pendingJobs|
      {
        RepliesPeel(pendingJobs, Err(error), fired, now);
        answers := answers + [Reply(pendingJobs[0], Err(error), pendingJobs[0].id in fired, now)];
        pendingJobs := pendingJobs[1..];
      }
    }

    method FinalizeTermination()
      modifies this`terminated, termination`status
      ensures State() == Finalised(old(State()))
    {
      if !terminated {
        var _ := termination.MarkTerminated();
        terminated := true;
      }
    }

    method AbandonWork(ghost fired: set<nat>, ghost now: nat)
      modifies this, termination`status
      ensures State() == Finalised(Aborted(old(State()), fired, now))
    {
      CancelAllJobs(TerminatedError(termination.reason), fired, now);
      FinalizeTermination();
    }

    // The event loop's verdict.  `again` restarts the turn.
    method TakeLoopOutcome(outcome: LoopOutcome, fired: bool, now: nat) returns (again: bool, drained: bool)
      modifies this, termination`status
      ensures State() == LoopPolled(old(State()), outcome, fired, now).0
      ensures LoopPolled(old(State()), outcome, fired, now).1 == if again then None else Some(drained)
    {
      again, drained := false, true;
      match outcome
      case Drained =>
      case Outstanding => drained := false;
      case Failed(f) =>
        var (error, finalises) := Translate(Raise(f), terminated || termination.status != Running, termination.reason);
        if finalises {
          FinalizeTermination();
        }
        if !IndicatesTermination(error) {
          again := true;
          if activeJob.Some? {
            FinishActive(Err(error), fired, now);
          }
        }
    }

    method PollActiveJob(ev: JobEvent, fired: bool, now: nat)
      modifies this, termination`status, termination`reason
      ensures State() == JobPolled(old(State()), ev, fired, now)
    {
      if activeJob.Some? {
        var p := PollJob(activeJob.value, now, ev, terminated || termination.status != Running, termination.reason);
        TakePolled(p, now);
        if p.ready.Some? {
          FinishActive(p.ready.value, fired, now);
        }
      }
    }

    method TakePolled(p: Polled, now: nat)
      requires activeJob.Some?
      modifies this, termination`status, termination`reason
      ensures State() == Noted(old(State()), p).(work := AfterPoll(old(Contents()), p, now))
    {
      if p.expired {
        termination.EnsureReason("timed out");
      }
      if p.finalises {
        FinalizeTermination();
      }
      activeJob := Some(p.job);
      if p.started {
        starts := starts + [Start(p.job.id, now, p.job.deadline)];
      }
    }

    // What other threads do at a point of the turn.
    method OtherThreads(m: Moment, p: Point)
      modifies termination
      ensures State() == Interfered(old(State()), m, p)
    {
      if p in m.others {
        var o := m.others[p];
        if o.reason.Some? {
          termination.EnsureReason(o.reason.value);
        }
        if o.requests {
          var _ := termination.Request();
        }
        if o.forces && termination.status != Running {
          var _ := termination.MarkTerminated();
        }
      }
    }

    method HandleCommand(cmd: Command, m: Moment) returns (turn: Turn)
      modifies this, termination
      ensures (State(), turn) == CommandHandled(old(State()), cmd, m)
    {
      turn := Stay;
      var rejecting := terminated || termination.status != Running;
      match cmd
      case StartJob(_, _, _, refused) =>
        if !rejecting && !refused {
          OtherThreads(m, DuringCommand);
          SubmitJob(cmd, m.now);
        }
      case Immediate(checksStatus) =>
        if !(checksStatus && rejecting) {
          OtherThreads(m, DuringCommand);
          if m.syncSaysTerminated && (terminated || termination.status != Running) {
            FinalizeTermination();
          }
        }
      case TerminateCommand =>
        AbandonWork(m.firedJobs, m.now);
        turn := Leave(ByCommand);
      case ShutdownCommand =>
        turn := Leave(ByShutdown);
    }

    method TakeJob(m: Moment)
      modifies this, termination
      ensures State() == JobTaken(old(State()), m)
    {
      OtherThreads(m, BeforeJob);
      PollActiveJob(m.job, m.fired, m.now);
      OtherThreads(m, BeforeCheck);
    }

    method HandleSelection(m: Moment) returns (turn: Turn)
      modifies this, termination
      ensures (State(), turn) == SelectionHandled(old(State()), m)
    {
      turn := Stay;
      match m.selected
      case Arrived(cmd) =>
        OtherThreads(m, BeforeCommand);
        turn := HandleCommand(cmd, m);
      case Closed =>
        termination.EnsureReason("Command channel closed unexpectedly");
        AbandonWork(m.firedJobs, m.now);
        turn := Leave(ByClosedChannel);
      case Woken =>
      case TickElapsed =>
    }

    method Settle(m: Moment) returns (turn: Turn)
      modifies this, termination
      ensures (State(), turn) == Settled(old(State()), m)
    {
      if (terminated || termination.status != Running) && (activeJob.Some? || pendingJobs != []) {
        AbandonWork(m.firedJobs, m.now);
        return Leave(ByRequest);
      }
      if jobJustActivated {
        jobJustActivated := false;
        return Stay;
      }
      turn := HandleSelection(m);
    }

    method TakeTurn(m: Moment) returns (turn: Turn)
      modifies this, termination
      ensures (State(), turn) == TurnTaken(old(State()), m)
    {
      OtherThreads(m, BeforeLoop);
      var again, drained := TakeLoopOutcome(m.loop, m.fired, m.now);
      if again {
        return Stay;
      }
      TakeJob(m);
      turn := Settle(m);
    }

    // The dispatcher's loop, for as long as the script of moments lasts.
    method Run(script: seq<Moment>) returns (why: Option<ExitReason>)
      requires CoreInv(State())
      modifies this, termination
      ensures (State(), why) == RunOf(old(State()), script)
      ensures InOrder(Contents())
      ensures why.Some? && why.value != ByShutdown ==> |answers| == accepted && terminated
    {
      var i := 0;
      why := None;
      while i < |script| && why.None?
        invariant 0 <= i <= |script|
        invariant why.None? ==> RunOf(State(), script[i..]) == RunOf(old(State()), script)
        invariant why.Some? ==> (State(), why) == RunOf(old(State()), script)
        decreases |script| - i, if why.None? then 1 else 0
      {
        var turn := TakeTurn(script[i]);
        if turn.Leave? {
          why := Some(turn.why);
        } else {
          assert script[i..][1..] == script[i + 1..];
        }
        i := i + 1;
      }
      RunAnswersInOrder(old(State()), script);
    }
  }
}
