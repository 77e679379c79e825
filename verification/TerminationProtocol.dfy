// The runtime thread interleaved with every other thread that can reach it: callers that
// request termination, senders, deno_core's wakes, the force-kill, and the clock.
// A `Step` is one atomic action; a run is any sequence of enabled steps.
module TerminationProtocol {
  import opened Wrappers
  import opened Jobs
  import opened WorkQueue
  import opened DispatcherCore

  // Where the runtime thread is in its loop.
  datatype Pc =
    | LoopHead
    | AtJob(drained: bool)
    | AtCheck(drained: bool)
    | Aborting(why: ExitReason)
    | Finalizing(why: ExitReason)
    | AtGate(drained: bool)
    | Parked(idle: bool, wakeAt: nat)
    | Handling(cmd: Command)
    | Submitting(cmd: Command)      // the status was read as running
    | Executing                     // a command answered on the spot
    | Exited(why: ExitReason)

  // A caller inside `request()`, between the swap and the notify, or on its way to send Terminate.
  datatype CallerPc = Swapped(first: bool, viaHandle: bool) | MustSend

  datatype System = System(
    core: Core,
    pc: Pc,
    permit: bool,
    queue: seq<Command>,
    open: bool,
    callers: map<nat, CallerPc>,
    now: nat,
    requestsWon: nat,               // how many `request()` calls returned true
    terminatesSent: nat)            // how many Terminate commands were sent

  const FRESH := System(FRESH_CORE, LoopHead, false, [], true, map[], 0, 0, 0)

  datatype Step =
    // the runtime thread
    | PollEventLoop(outcome: LoopOutcome, fired: bool)
    | PollActiveJob(ev: JobEvent, fired: bool)
    | ReadStatus
    | AbortWork(firedJobs: set<nat>)
    | Finalize
    | PassGate
    | TakeCommand
    | SeeClosed
    | TakePermit
    | TickElapsed
    | BeginCommand
    | SubmitHeld
    | FinishImmediate(saysTerminated: bool)
    // everyone else
    | NameReason(text: string)
    | Swap(caller: nat, viaHandle: bool)
    | Notify(caller: nat)
    | SendTerminate(caller: nat)
    | SendCommand(cmd: Command)
    | CloseChannel
    | Wake
    | ForceMark
    | Advance(dt: nat)

  predicate ByRuntimeThread(step: Step) {
    !(step.NameReason? || step.Swap? || step.Notify? || step.SendTerminate? || step.SendCommand?
      || step.CloseChannel? || step.Wake? || step.ForceMark? || step.Advance?)
  }

  predicate Enabled(s: System, step: Step) {
    match step
    case PollEventLoop(_, _) => s.pc.LoopHead?
    case PollActiveJob(_, _) => s.pc.AtJob?
    case ReadStatus => s.pc.AtCheck?
    case AbortWork(_) => s.pc.Aborting?
    case Finalize => s.pc.Finalizing?
    case PassGate => s.pc.AtGate?
    // The select is biased: a command first, then the permit, then the timer.
    case TakeCommand => s.pc.Parked? && s.queue != []
    case SeeClosed => s.pc.Parked? && s.queue == [] && !s.open
    case TakePermit => s.pc.Parked? && s.queue == [] && s.open && s.permit
    case TickElapsed => s.pc.Parked? && s.queue == [] && s.open && !s.permit && !s.pc.idle && s.pc.wakeAt <= s.now
    case BeginCommand => s.pc.Handling?
    case SubmitHeld => s.pc.Submitting? && s.pc.cmd.StartJob?
    case FinishImmediate(_) => s.pc.Executing?
    case NameReason(_) => true
    case Swap(caller, _) => caller !in s.callers
    case Notify(caller) => caller in s.callers && s.callers[caller].Swapped?
    case SendTerminate(caller) => caller in s.callers && s.callers[caller].MustSend?
    case SendCommand(cmd) => s.open && !cmd.TerminateCommand?
    case CloseChannel => s.open
    case Wake => true
    case ForceMark => s.core.status != Running
    case Advance(_) => true
  }

  // The parts of a turn up to the park.
  predicate InTurn(step: Step) {
    step.PollEventLoop? || step.PollActiveJob? || step.ReadStatus? || step.AbortWork? || step.Finalize? || step.PassGate?
  }

  function TurnStep(s: System, step: Step): System
    requires Enabled(s, step) && InTurn(step)
  {
    match step
    case PollEventLoop(outcome, fired) =>
      var (core, drained) := LoopPolled(s.core, outcome, fired, s.now);
      s.(core := core, pc := if drained.None? then LoopHead else AtJob(drained.value))
    case PollActiveJob(ev, fired) =>
      s.(core := JobPolled(s.core, ev, fired, s.now), pc := AtCheck(s.pc.drained))
    case ReadStatus =>
      s.(pc := if MustAbort(s.core) then Aborting(ByRequest) else AtGate(s.pc.drained))
    case AbortWork(firedJobs) =>
      s.(core := Aborted(s.core, firedJobs, s.now), pc := Finalizing(s.pc.why))
    case Finalize =>
      s.(core := Finalised(s.core), pc := Exited(s.pc.why))
    case PassGate =>
      if s.core.work.justActivated then s.(core := GatePassed(s.core), pc := LoopHead)
      else
        var idle := s.pc.drained && !HasWork(s.core.work);
        s.(pc := Parked(idle, s.now + PendingWait(s.core.work, s.now)))
  }

  // The park and what wakes the runtime thread from it.
  function WakeStep(s: System, step: Step): System
    requires Enabled(s, step) && ByRuntimeThread(step) && !InTurn(step)
  {
    match step
    case TakeCommand => s.(pc := Handling(s.queue[0]), queue := s.queue[1..])
    case SeeClosed =>
      s.(core := WithReason(s.core, "Command channel closed unexpectedly"), pc := Aborting(ByClosedChannel))
    case TakePermit => s.(pc := LoopHead, permit := false)
    case TickElapsed => s.(pc := LoopHead)
    case BeginCommand =>
      (match s.pc.cmd
       case StartJob(_, _, _, refused) =>
         s.(pc := if Rejecting(s.core) || refused then LoopHead else Submitting(s.pc.cmd))
       case Immediate(checksStatus) =>
         s.(pc := if checksStatus && Rejecting(s.core) then LoopHead else Executing)
       case TerminateCommand => s.(pc := Aborting(ByCommand))
       case ShutdownCommand => s.(pc := Exited(ByShutdown)))
    case SubmitHeld => s.(core := Submitted(s.core, s.pc.cmd, s.now), pc := LoopHead)
    case FinishImmediate(says) =>
      s.(core := if says && Rejecting(s.core) then Finalised(s.core) else s.core, pc := LoopHead)
  }

  function OtherStep(s: System, step: Step): System
    requires Enabled(s, step) && !ByRuntimeThread(step)
  {
    match step
    case NameReason(text) => s.(core := WithReason(s.core, text))
    case Swap(caller, viaHandle) =>
      var first := s.core.status == Running;
      s.(core := Requesting(s.core),
         callers := s.callers[caller := Swapped(first, viaHandle)],
         requestsWon := s.requestsWon + (if first then 1 else 0))
    case Notify(caller) =>
      var swapped := s.callers[caller];
      s.(permit := true,
         callers := if swapped.first && swapped.viaHandle then s.callers[caller := MustSend] else s.callers - {caller})
    case SendTerminate(caller) =>
      s.(callers := s.callers - {caller},
         queue := if s.open then s.queue + [TerminateCommand] else s.queue,
         terminatesSent := s.terminatesSent + 1)
    case SendCommand(cmd) => s.(queue := s.queue + [cmd])
    case CloseChannel => s.(open := false)
    case Wake => s.(permit := true)
    case ForceMark => s.(core := s.core.(status := Terminated))
    case Advance(dt) => s.(now := s.now + dt)
  }

  function Apply(s: System, step: Step): System
    requires Enabled(s, step)
  {
    if InTurn(step) then TurnStep(s, step)
    else if ByRuntimeThread(step) then WakeStep(s, step)
    else OtherStep(s, step)
  }

  predicate Legal(s: System, run: seq<Step>)
    decreases |run|
  {
    run == [] || (Enabled(s, run[0]) && Legal(Apply(s, run[0]), run[1..]))
  }

  function Exec(s: System, run: seq<Step>): System
    requires Legal(s, run)
    decreases |run|
  {
    if run == [] then s else Exec(Apply(s, run[0]), run[1..])
  }

  lemma {:induction false} ExecAppend(s: System, a: seq<Step>, b: seq<Step>)
    requires Legal(s, a) && Legal(Exec(s, a), b)
    ensures Legal(s, a + b) && Exec(s, a + b) == Exec(Exec(s, a), b)
    decreases |a|
  {
    if a == [] {
      assert a + b == b;
    } else {
      assert (a + b)[1..] == a[1..] + b;
      ExecAppend(Apply(s, a[0]), a[1..], b);
    }
  }

  // ---- the invariant ----

  predicate Winning(c: CallerPc) {
    c.MustSend? || c.first
  }

  // One `request()` returns true; only its caller may send the one Terminate command.
  ghost predicate OneWinner(s: System) {
    && s.terminatesSent <= s.requestsWon <= 1
    && (s.core.status == Running ==> s.requestsWon == 0)
    && (forall c :: c in s.callers && Winning(s.callers[c]) ==> s.requestsWon == 1 && s.terminatesSent == 0)
    && (forall c, d :: c in s.callers && d in s.callers && Winning(s.callers[c]) && Winning(s.callers[d]) ==> c == d)
  }

  predicate ServingTerminate(s: System) {
    s.pc == Handling(TerminateCommand) || s.pc == Aborting(ByCommand)
    || s.pc == Finalizing(ByCommand) || s.pc == Exited(ByCommand)
  }

  // Nothing is terminated unasked, except by the channel closing.
  ghost predicate Asked(s: System) {
    && (TerminateCommand in s.queue ==> s.terminatesSent == 1)
    && (ServingTerminate(s) ==> s.terminatesSent == 1)
    && (s.core.status != Running && s.pc != Exited(ByClosedChannel) ==> s.requestsWon == 1)
  }

  ghost predicate NotifyPending(s: System) {
    exists c :: c in s.callers && s.callers[c].Swapped?
  }

  // The runtime thread never sleeps on work it should abandon without a wake on its way.
  ghost predicate NoLostWake(s: System) {
    (s.pc.AtGate? || s.pc.Parked?) && HasWork(s.core.work) && s.core.status != Running ==>
      s.permit || NotifyPending(s)
  }

  // A job that has not been polled never waits behind the park.
  predicate Unpolled(w: Work) {
    w.active.Some? && w.active.value.state == Init
  }

  ghost predicate FreshJobsPolled(s: System) {
    && (s.pc.AtCheck? || s.pc.AtGate? ==> (Unpolled(s.core.work) ==> s.core.work.justActivated))
    && (s.pc.Parked? ==> !Unpolled(s.core.work) && !s.core.work.justActivated)
  }

  ghost predicate ExitsClean(s: System) {
    && (s.pc.Aborting? || s.pc.Finalizing? || (s.pc.Exited? && s.pc.why != ByShutdown) ==> s.pc.why != ByShutdown)
    && (s.pc.Finalizing? || (s.pc.Exited? && s.pc.why != ByShutdown) ==>
          !HasWork(s.core.work) && |s.core.work.answers| == s.core.work.submitted)
    && (s.pc.Exited? && s.pc.why != ByShutdown ==> s.core.terminated)
    && (s.pc == Aborting(ByRequest) || s.pc == Finalizing(ByRequest) || s.pc == Exited(ByRequest) ==>
          s.core.status != Running)
    && (s.pc.Submitting? ==> s.pc.cmd.StartJob?)
  }

  ghost predicate Inv(s: System) {
    CoreInv(s.core) && OneWinner(s) && Asked(s) && NoLostWake(s) && FreshJobsPolled(s) && ExitsClean(s)
  }

  lemma FreshInv()
    ensures Inv(FRESH)
  {
  }

  // The other threads leave the runtime thread's work, its place and its own flag alone.
  lemma OthersLeaveWork(s: System, step: Step)
    requires Enabled(s, step) && !ByRuntimeThread(step)
    ensures var t := Apply(s, step);
      t.pc == s.pc && t.core.work == s.core.work && t.core.terminated == s.core.terminated
  {
    assert Apply(s, step) == OtherStep(s, step);
  }

  // ... and the runtime thread leaves the others alone, but for the commands and permits it takes.
  lemma OwnLeavesCallers(s: System, step: Step)
    requires Enabled(s, step) && ByRuntimeThread(step)
    ensures var t := Apply(s, step);
      t.callers == s.callers && t.requestsWon == s.requestsWon && t.terminatesSent == s.terminatesSent && t.now == s.now
  {
    if InTurn(step) {
      assert Apply(s, step) == TurnStep(s, step);
    } else {
      assert Apply(s, step) == WakeStep(s, step);
    }
  }

  lemma TurnStepKeepsCore(s: System, step: Step)
    requires CoreInv(s.core) && Enabled(s, step) && InTurn(step)
    ensures CoreInv(Apply(s, step).core)
  {
    match step
    case PollEventLoop(outcome, fired) => LoopPolledKeeps(s.core, outcome, fired, s.now);
    case PollActiveJob(ev, fired) => JobPolledKeeps(s.core, ev, fired, s.now);
    case AbortWork(firedJobs) => AbortedKeeps(s.core, firedJobs, s.now);
    case PassGate => GatePassedKeeps(s.core);
    case _ => SharedStateKeeps(s.core, "");
  }

  lemma WakeStepKeepsCore(s: System, step: Step)
    requires CoreInv(s.core) && Enabled(s, step) && ByRuntimeThread(step) && !InTurn(step)
    ensures CoreInv(Apply(s, step).core)
  {
    var t := Apply(s, step);
    if step.SubmitHeld? {
      SubmittedKeeps(s.core, s.pc.cmd, s.now);
    } else if step.SeeClosed? {
      SharedStateKeeps(s.core, "Command channel closed unexpectedly");
    } else {
      SharedStateKeeps(s.core, "");
      assert t.core == s.core || t.core == Finalised(s.core);
    }
  }

  lemma OtherStepKeepsCore(s: System, step: Step)
    requires CoreInv(s.core) && Enabled(s, step) && !ByRuntimeThread(step)
    ensures CoreInv(Apply(s, step).core)
  {
    OthersLeaveWork(s, step);
    OtherStepForward(s, step);
  }

  lemma CoreStepKeeps(s: System, step: Step)
    requires CoreInv(s.core) && Enabled(s, step)
    ensures CoreInv(Apply(s, step).core)
  {
    if InTurn(step) {
      TurnStepKeepsCore(s, step);
    } else if ByRuntimeThread(step) {
      WakeStepKeepsCore(s, step);
    } else {
      OtherStepKeepsCore(s, step);
    }
  }

  // What a step may do to the shared status and reason: never move the status back, never
  // replace a reason, and leave running only by a request or by finalising what was asked for.
  predicate ForwardFrom(c: Core, d: Core, step: Step) {
    && (c.status != Running ==> d.status != Running)
    && (c.status == Terminated ==> d.status == Terminated)
    && (c.reason.Some? ==> d.reason == c.reason)
    && (c.status == Running && d.status != Running ==> step.Swap? || step.Finalize?)
  }

  predicate Forward(s: System, step: Step)
    requires Enabled(s, step)
  {
    ForwardFrom(s.core, Apply(s, step).core, step)
  }

  lemma LoopPolledForward(c: Core, outcome: LoopOutcome, fired: bool, now: nat, step: Step)
    ensures ForwardFrom(c, LoopPolled(c, outcome, fired, now).0, step)
  {
  }

  lemma JobPolledForward(c: Core, ev: JobEvent, fired: bool, now: nat, step: Step)
    ensures ForwardFrom(c, JobPolled(c, ev, fired, now), step)
  {
    if c.work.active.Some? {
      var p := PollJob(c.work.active.value, now, ev, Rejecting(c), c.reason);
      assert p.finalises ==> Rejecting(c);
    }
  }

  lemma TurnStepForward(s: System, step: Step)
    requires (s.core.terminated ==> s.core.status == Terminated) && Enabled(s, step) && InTurn(step)
    ensures Forward(s, step)
  {
    match step
    case PollEventLoop(outcome, fired) => LoopPolledForward(s.core, outcome, fired, s.now, step);
    case PollActiveJob(ev, fired) => JobPolledForward(s.core, ev, fired, s.now, step);
    case _ =>
  }

  lemma WakeStepForward(s: System, step: Step)
    requires Enabled(s, step) && ByRuntimeThread(step) && !InTurn(step)
    requires s.core.terminated ==> s.core.status == Terminated
    ensures Forward(s, step)
  {
  }

  lemma OtherStepForward(s: System, step: Step)
    requires Enabled(s, step) && !ByRuntimeThread(step)
    ensures Forward(s, step)
  {
    assert Apply(s, step) == OtherStep(s, step);
  }

  lemma StatusForward(s: System, step: Step)
    requires (s.core.terminated ==> s.core.status == Terminated) && Enabled(s, step)
    ensures Forward(s, step)
  {
    if InTurn(step) {
      TurnStepForward(s, step);
    } else if ByRuntimeThread(step) {
      WakeStepForward(s, step);
    } else {
      OtherStepForward(s, step);
    }
  }

  lemma OneWinnerKeepsOther(s: System, step: Step)
    requires OneWinner(s) && Enabled(s, step) && !ByRuntimeThread(step) && Forward(s, step)
    ensures OneWinner(Apply(s, step))
  {
    var s' := Apply(s, step);
    if step.Swap? || step.Notify? || step.SendTerminate? {
      forall c | c in s'.callers && Winning(s'.callers[c])
        ensures (c in s.callers && Winning(s.callers[c])) || (step.Swap? && c == step.caller && s.core.status == Running)
      {
      }
    } else {
      assert s'.callers == s.callers && s'.requestsWon == s.requestsWon;
    }
  }

  lemma OneWinnerKeeps(s: System, step: Step)
    requires OneWinner(s) && Enabled(s, step) && Forward(s, step)
    ensures OneWinner(Apply(s, step))
  {
    if ByRuntimeThread(step) {
      OwnLeavesCallers(s, step);
    } else {
      OneWinnerKeepsOther(s, step);
    }
  }

  lemma AskedKeeps(s: System, step: Step)
    requires OneWinner(s) && Asked(s) && ExitsClean(s) && CoreInv(s.core) && Enabled(s, step)
    ensures Asked(Apply(s, step))
  {
    StatusForward(s, step);
    if InTurn(step) {
      AskedKeepsTurn(s, step);
    } else if ByRuntimeThread(step) {
      AskedKeepsWake(s, step);
    } else {
      AskedKeepsOther(s, step);
    }
  }

  lemma AskedKeepsTurn(s: System, step: Step)
    requires Asked(s) && ExitsClean(s) && Enabled(s, step) && InTurn(step) && Forward(s, step)
    requires s.core.terminated ==> s.core.status == Terminated
    requires OneWinner(s)
    ensures Asked(Apply(s, step))
  {
    OwnLeavesCallers(s, step);
    assert Apply(s, step).queue == s.queue;
  }

  lemma AskedKeepsWake(s: System, step: Step)
    requires Asked(s) && Enabled(s, step) && ByRuntimeThread(step) && !InTurn(step) && Forward(s, step)
    ensures Asked(Apply(s, step))
  {
    OwnLeavesCallers(s, step);
  }

  lemma AskedKeepsOther(s: System, step: Step)
    requires OneWinner(s) && Asked(s) && Enabled(s, step) && !ByRuntimeThread(step) && Forward(s, step)
    ensures Asked(Apply(s, step))
  {
    OthersLeaveWork(s, step);
  }

  lemma NoLostWakeKeepsOther(s: System, step: Step)
    requires NoLostWake(s) && Enabled(s, step) && !ByRuntimeThread(step)
    ensures NoLostWake(Apply(s, step))
  {
    var s' := Apply(s, step);
    OthersLeaveWork(s, step);
    if NotifyPending(s) {
      var c :| c in s.callers && s.callers[c].Swapped?;
      assert s'.permit || (c in s'.callers && s'.callers[c].Swapped?);
    }
    if step.Swap? {
      assert step.caller in s'.callers && s'.callers[step.caller].Swapped?;
    }
  }

  lemma NoLostWakeKeepsOwn(s: System, step: Step)
    requires NoLostWake(s) && Enabled(s, step) && ByRuntimeThread(step)
    ensures NoLostWake(Apply(s, step))
  {
    OwnLeavesCallers(s, step);
    assert NotifyPending(Apply(s, step)) == NotifyPending(s);
  }

  lemma NoLostWakeKeeps(s: System, step: Step)
    requires NoLostWake(s) && Enabled(s, step)
    ensures NoLostWake(Apply(s, step))
  {
    if ByRuntimeThread(step) {
      NoLostWakeKeepsOwn(s, step);
    } else {
      NoLostWakeKeepsOther(s, step);
    }
  }

  // A job still unpolled after this turn's poll has only just been activated.
  lemma PolledIsNotFresh(c: Core, ev: JobEvent, fired: bool, now: nat)
    requires CoreInv(c)
    ensures Unpolled(JobPolled(c, ev, fired, now).work) ==> JobPolled(c, ev, fired, now).work.justActivated
  {
    if c.work.active.Some? {
      PollFollows(c.work.active.value, now, ev, Rejecting(c), c.reason);
    }
  }

  lemma FreshJobsKeepTurn(s: System, step: Step)
    requires FreshJobsPolled(s) && CoreInv(s.core) && Enabled(s, step) && InTurn(step)
    ensures FreshJobsPolled(Apply(s, step))
  {
    match step
    case PollActiveJob(ev, fired) => PolledIsNotFresh(s.core, ev, fired, s.now);
    case _ =>
  }

  lemma FreshJobsKeep(s: System, step: Step)
    requires FreshJobsPolled(s) && CoreInv(s.core) && Enabled(s, step)
    ensures FreshJobsPolled(Apply(s, step))
  {
    if InTurn(step) {
      FreshJobsKeepTurn(s, step);
    } else if !ByRuntimeThread(step) {
      OthersLeaveWork(s, step);
    }
  }

  lemma ExitsKeepTurn(s: System, step: Step)
    requires ExitsClean(s) && CoreInv(s.core) && Enabled(s, step) && InTurn(step)
    ensures ExitsClean(Apply(s, step))
  {
    match step
    case AbortWork(firedJobs) => AbortedKeeps(s.core, firedJobs, s.now);
    case _ =>
  }

  lemma ExitsKeepWake(s: System, step: Step)
    requires ExitsClean(s) && Enabled(s, step) && ByRuntimeThread(step) && !InTurn(step)
    ensures ExitsClean(Apply(s, step))
  {
  }

  lemma ExitsKeep(s: System, step: Step)
    requires ExitsClean(s) && CoreInv(s.core) && Enabled(s, step)
    ensures ExitsClean(Apply(s, step))
  {
    if InTurn(step) {
      ExitsKeepTurn(s, step);
    } else if ByRuntimeThread(step) {
      ExitsKeepWake(s, step);
    } else {
      OthersLeaveWork(s, step);
      OtherStepForward(s, step);
    }
  }

  lemma StepKeeps(s: System, step: Step)
    requires Inv(s) && Enabled(s, step)
    ensures Inv(Apply(s, step))
  {
    CoreStepKeeps(s, step);
    StatusForward(s, step);
    OneWinnerKeeps(s, step);
    AskedKeeps(s, step);
    NoLostWakeKeeps(s, step);
    FreshJobsKeep(s, step);
    ExitsKeep(s, step);
  }

  // Every interleaving keeps the invariant, never moves the status back and never replaces
  // the first reason.
  lemma {:induction false} RunKeeps(s: System, run: seq<Step>)
    requires Inv(s) && Legal(s, run)
    ensures Inv(Exec(s, run))
    ensures s.core.status != Running ==> Exec(s, run).core.status != Running
    ensures s.core.status == Terminated ==> Exec(s, run).core.status == Terminated
    ensures s.core.reason.Some? ==> Exec(s, run).core.reason == s.core.reason
    decreases |run|
  {
    if run != [] {
      StepKeeps(s, run[0]);
      StatusForward(s, run[0]);
      RunKeeps(Apply(s, run[0]), run[1..]);
    }
  }

  // What the invariant says of any run of a fresh runtime.
  lemma FreshRuns(run: seq<Step>)
    requires Legal(FRESH, run)
    ensures var s := Exec(FRESH, run);
      && s.terminatesSent <= s.requestsWon <= 1
      && InOrder(s.core.work) && StartsHonest(s.core.work) && TimeoutsHonest(s.core.work)
      && (s.pc.Parked? && HasWork(s.core.work) && s.core.status != Running ==> s.permit || NotifyPending(s))
      && (s.pc.Exited? && s.pc.why != ByShutdown ==>
            |s.core.work.answers| == s.core.work.submitted && !HasWork(s.core.work) && s.core.status == Terminated)
      && (s.pc.Exited? && s.pc.why == ByRequest ==> s.requestsWon == 1)
      && (s.pc.Exited? && s.pc.why == ByCommand ==> s.terminatesSent == 1)
  {
    FreshInv();
    RunKeeps(FRESH, run);
  }
}
