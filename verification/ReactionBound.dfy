// Once the status has left running: how many more steps of the runtime thread, turns of its
// loop and job polls there can be before no work is held, whatever the other threads do.
module ReactionBound {
  import opened Wrappers
  import opened Jobs
  import opened WorkQueue
  import opened DispatcherCore
  import opened TerminationProtocol

  predicate Busy(s: System) {
    !s.pc.Exited? && (HasWork(s.core.work) || s.pc.Submitting?)
  }

  function HeldCount(s: System): nat {
    |Held(s.core.work)|
  }

  // Steps of the runtime thread left.
  function Rank(s: System): nat {
    match s.pc
    case LoopHead => 4 + HeldCount(s)
    case AtJob(_) => 3
    case AtCheck(_) => 2
    case Aborting(_) => 1
    case Finalizing(_) => 0
    case AtGate(_) => 8 + HeldCount(s)
    case Parked(_, _) => 7 + HeldCount(s)
    case Handling(_) => 6 + HeldCount(s)
    case Submitting(_) => 6 + HeldCount(s)
    case Executing => 5 + HeldCount(s)
    case Exited(_) => 0
  }

  function StepsLeft(s: System): nat {
    if Busy(s) then Rank(s) else 0
  }

  function TurnsLeft(s: System): nat {
    if !Busy(s) || s.pc.AtJob? || s.pc.AtCheck? || s.pc.Aborting? || s.pc.Finalizing? then 0
    else HeldCount(s) + (if s.pc.Submitting? then 1 else 0)
  }

  function PollsLeft(s: System): nat {
    if !Busy(s) || s.pc.AtCheck? || s.pc.Aborting? || s.pc.Finalizing? then 0 else 1
  }

  // What a run actually spends.
  function Steps(s: System, run: seq<Step>): nat
    requires Legal(s, run)
    decreases |run|
  {
    if run == [] then 0
    else (if ByRuntimeThread(run[0]) && Busy(s) then 1 else 0) + Steps(Apply(s, run[0]), run[1..])
  }

  function Turns(s: System, run: seq<Step>): nat
    requires Legal(s, run)
    decreases |run|
  {
    if run == [] then 0
    else (if run[0].PollEventLoop? && Busy(s) then 1 else 0) + Turns(Apply(s, run[0]), run[1..])
  }

  function Polls(s: System, run: seq<Step>): nat
    requires Legal(s, run)
    decreases |run|
  {
    if run == [] then 0
    else (if run[0].PollActiveJob? && s.core.work.active.Some? then 1 else 0) + Polls(Apply(s, run[0]), run[1..])
  }

  lemma HeldAfterLoop(s: System, outcome: LoopOutcome, fired: bool)
    requires CoreInv(s.core) && s.pc.LoopHead?
    ensures var s' := Apply(s, PollEventLoop(outcome, fired));
      s'.pc.LoopHead? && HasWork(s.core.work) ==> HeldCount(s') == HeldCount(s) - 1
  {
    var (core, drained) := LoopPolled(s.core, outcome, fired, s.now);
    if drained.None? && HasWork(s.core.work) {
      var (error, _) := Translate(Raise(outcome.fault), Rejecting(s.core), s.core.reason);
      CompleteKeeps(s.core.work, Err(error), fired, s.now);
    }
  }

  ghost predicate WorkMoves(s: System, step: Step)
    requires Enabled(s, step)
  {
    var s' := Apply(s, step);
    && (step.PollEventLoop? && s'.pc.LoopHead? && HasWork(s.core.work) ==> HeldCount(s') == HeldCount(s) - 1)
    && (step.PollActiveJob? ==> HeldCount(s') <= HeldCount(s))
    && (step.SubmitHeld? ==> HeldCount(s') == HeldCount(s) + 1)
    && (step.AbortWork? ==> !HasWork(s'.core.work))
    && (!step.PollEventLoop? && !step.PollActiveJob? && !step.SubmitHeld? && !step.AbortWork? ==>
          s'.core.work.active == s.core.work.active && s'.core.work.pending == s.core.work.pending)
  }

  // What a step of the runtime thread does to the work it holds, once the status has left
  // running.
  lemma OwnStepWork(s: System, step: Step)
    requires CoreInv(s.core) && s.core.status != Running && Enabled(s, step) && ByRuntimeThread(step)
    ensures WorkMoves(s, step)
  {
    match step
    case PollEventLoop(outcome, fired) => HeldAfterLoop(s, outcome, fired);
    case SubmitHeld => SubmittedKeeps(s.core, s.pc.cmd, s.now);
    case PassGate => GatePassedKeeps(s.core);
    case AbortWork(firedJobs) => AbortedKeeps(s.core, firedJobs, s.now);
    case _ =>
  }

  lemma OwnStepSpendsStepsInTurn(s: System, step: Step)
    requires s.core.status != Running && !(s.pc.Finalizing? && HasWork(s.core.work))
    requires Enabled(s, step) && InTurn(step) && WorkMoves(s, step)
    ensures !Busy(s) ==> !Busy(Apply(s, step))
    ensures Busy(s) ==> StepsLeft(Apply(s, step)) < StepsLeft(s)
  {
    assert Apply(s, step) == TurnStep(s, step);
  }

  lemma OwnStepSpendsStepsParked(s: System, step: Step)
    requires s.core.status != Running && !(s.pc.Finalizing? && HasWork(s.core.work))
    requires Enabled(s, step) && ByRuntimeThread(step) && !InTurn(step) && WorkMoves(s, step)
    ensures !Busy(s) ==> !Busy(Apply(s, step))
    ensures Busy(s) ==> StepsLeft(Apply(s, step)) < StepsLeft(s)
  {
    assert Apply(s, step) == WakeStep(s, step);
  }

  lemma OwnStepSpendsTurns(s: System, step: Step)
    requires s.core.status != Running && !(s.pc.Finalizing? && HasWork(s.core.work))
    requires Enabled(s, step) && ByRuntimeThread(step) && WorkMoves(s, step)
    ensures TurnsLeft(Apply(s, step)) + (if step.PollEventLoop? && Busy(s) then 1 else 0) <= TurnsLeft(s)
  {
  }

  lemma OwnStepSpendsPolls(s: System, step: Step)
    requires s.core.status != Running && !(s.pc.Finalizing? && HasWork(s.core.work))
    requires Enabled(s, step) && ByRuntimeThread(step) && WorkMoves(s, step)
    ensures PollsLeft(Apply(s, step)) + (if step.PollActiveJob? && s.core.work.active.Some? then 1 else 0) <= PollsLeft(s)
  {
  }

  // The runtime thread's own steps use the budgets up.
  lemma OwnStepSpends(s: System, step: Step)
    requires Inv(s) && s.core.status != Running && Enabled(s, step) && ByRuntimeThread(step)
    ensures !Busy(s) ==> !Busy(Apply(s, step))
    ensures Busy(s) ==> StepsLeft(Apply(s, step)) < StepsLeft(s)
    ensures TurnsLeft(Apply(s, step)) + (if step.PollEventLoop? && Busy(s) then 1 else 0) <= TurnsLeft(s)
    ensures PollsLeft(Apply(s, step)) + (if step.PollActiveJob? && s.core.work.active.Some? then 1 else 0) <= PollsLeft(s)
  {
    OwnStepWork(s, step);
    if InTurn(step) {
      OwnStepSpendsStepsInTurn(s, step);
    } else {
      OwnStepSpendsStepsParked(s, step);
    }
    OwnStepSpendsTurns(s, step);
    OwnStepSpendsPolls(s, step);
  }

  // Nobody else can give any of it back.
  lemma OthersDoNotDelay(s: System, step: Step)
    requires Enabled(s, step) && !ByRuntimeThread(step)
    ensures Busy(Apply(s, step)) == Busy(s)
    ensures StepsLeft(Apply(s, step)) == StepsLeft(s)
    ensures TurnsLeft(Apply(s, step)) == TurnsLeft(s) && PollsLeft(Apply(s, step)) == PollsLeft(s)
  {
    OthersLeaveWork(s, step);
  }

  // One step of anybody's, with its part of the run's spending.
  lemma StepSpends(s: System, step: Step)
    requires Inv(s) && s.core.status != Running && Enabled(s, step)
    ensures var t := Apply(s, step);
      && Inv(t) && t.core.status != Running
      && StepsLeft(t) + (if ByRuntimeThread(step) && Busy(s) then 1 else 0) <= StepsLeft(s)
      && TurnsLeft(t) + (if step.PollEventLoop? && Busy(s) then 1 else 0) <= TurnsLeft(s)
      && PollsLeft(t) + (if step.PollActiveJob? && s.core.work.active.Some? then 1 else 0) <= PollsLeft(s)
  {
    StepKeeps(s, step);
    StatusForward(s, step);
    if ByRuntimeThread(step) {
      OwnStepSpends(s, step);
    } else {
      OthersDoNotDelay(s, step);
    }
  }

  // At most one more job poll, at most one turn per held job (one more for a job that was
  // already past the status check), and a bounded number of steps.
  lemma {:induction false} ReactionIsBounded(s: System, run: seq<Step>)
    requires Inv(s) && s.core.status != Running && Legal(s, run)
    ensures Polls(s, run) <= PollsLeft(s) <= 1
    ensures Turns(s, run) <= TurnsLeft(s) <= HeldCount(s) + 1
    ensures Steps(s, run) <= StepsLeft(s) <= HeldCount(s) + 8
    decreases |run|
  {
    if run != [] {
      StepSpends(s, run[0]);
      ReactionIsBounded(Apply(s, run[0]), run[1..]);
    }
  }

  // The step the runtime thread takes next, other than waiting for the safety-net tick.
  function NextOwnStep(s: System): Option<Step> {
    match s.pc
    case LoopHead => Some(PollEventLoop(Drained, false))
    case AtJob(_) => Some(PollActiveJob(JobEvent(None, Unsettled, Ok(0)), false))
    case AtCheck(_) => Some(ReadStatus)
    case Aborting(_) => Some(AbortWork({}))
    case Finalizing(_) => Some(Finalize)
    case AtGate(_) => Some(PassGate)
    case Parked(_, _) =>
      if s.queue != [] then Some(TakeCommand)
      else if !s.open then Some(SeeClosed)
      else if s.permit then Some(TakePermit)
      else None
    case Handling(_) => Some(BeginCommand)
    case Submitting(_) => Some(SubmitHeld)
    case Executing => Some(FinishImmediate(false))
    case Exited(_) => None
  }

  predicate TickFree(step: Step) {
    !step.TickElapsed? && !step.Advance? && (ByRuntimeThread(step) || step.Notify?)
  }

  lemma OwnStepEnabled(s: System)
    requires Inv(s) && Busy(s) && NextOwnStep(s).Some?
    ensures Enabled(s, NextOwnStep(s).value) && ByRuntimeThread(NextOwnStep(s).value) && TickFree(NextOwnStep(s).value)
  {
  }

  // A parked runtime thread with work in hand is woken by a permit, or by a notify on its way.
  lemma WakeOnItsWay(s: System) returns (first: seq<Step>)
    requires Inv(s) && s.core.status != Running && Busy(s)
    ensures |first| <= 1 && Legal(s, first) && (forall i :: 0 <= i < |first| ==> first[i].Notify?)
    ensures var s1 := Exec(s, first);
      Inv(s1) && s1.core.status != Running && Busy(s1) && StepsLeft(s1) == StepsLeft(s) && NextOwnStep(s1).Some?
  {
    first := [];
    if NextOwnStep(s).None? {
      assert NotifyPending(s);
      var c :| c in s.callers && s.callers[c].Swapped?;
      first := [Notify(c)];
      StepKeeps(s, Notify(c));
      OthersDoNotDelay(s, Notify(c));
      assert first[1..] == [] && Exec(s, first) == Apply(s, Notify(c));
    }
  }

  // One own step, after the notify it may have to wait for.
  lemma OneStepCloser(s: System) returns (steps: seq<Step>)
    requires Inv(s) && s.core.status != Running && Busy(s)
    ensures |steps| <= 2 && Legal(s, steps) && (forall i :: 0 <= i < |steps| ==> TickFree(steps[i]))
    ensures var t := Exec(s, steps); Inv(t) && t.core.status != Running && StepsLeft(t) < StepsLeft(s)
  {
    var first := WakeOnItsWay(s);
    var s1 := Exec(s, first);
    OwnStepEnabled(s1);
    var own := NextOwnStep(s1).value;
    StepSpends(s1, own);
    assert [own][1..] == [] && Exec(s1, [own]) == Apply(s1, own);
    ExecAppend(s, first, [own]);
    steps := first + [own];
  }

  // From any reachable state in which work is held and the status has left running, the work is
  // gone after a bounded run that contains no tick, no passing of time, and at most the notify
  // of a request that is already half made.
  lemma {:induction false} DrainsWithoutTick(s: System) returns (run: seq<Step>)
    requires Inv(s) && s.core.status != Running
    ensures Legal(s, run) && !Busy(Exec(s, run))
    ensures forall i :: 0 <= i < |run| ==> TickFree(run[i])
    ensures |run| <= 2 * StepsLeft(s)
    decreases StepsLeft(s)
  {
    run := [];
    if Busy(s) {
      var first := OneStepCloser(s);
      var rest := DrainsWithoutTick(Exec(s, first));
      ExecAppend(s, first, rest);
      run := first + rest;
    }
  }
}
