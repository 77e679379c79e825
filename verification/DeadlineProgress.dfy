// A due job is answered: at its due time the runtime thread can always take a step, a few of
// them are enough, nobody else can add to them, and no time passes before the answer.
module DeadlineProgress {
  import opened Wrappers
  import opened Jobs
  import opened WorkQueue
  import opened DispatcherCore
  import opened TerminationProtocol
  import opened Deadlines

  // The active job is due and the loop has not been shut down.
  ghost predicate DueNow(s: System) {
    var w := s.core.work;
    && !s.pc.Exited?
    && w.active.Some? && w.active.value.deadline.Some?
    && s.now == Due(w.active.value.deadline.value, w.active.value.since)
  }

  predicate Answered(s: System, id: nat) {
    id < |s.core.work.answers|
  }

  predicate ShutDown(s: System) {
    s.pc == Exited(ByShutdown)
  }

  // ---- a step is always enabled ----

  // The runtime thread's next step; the environment supplies `outcome` and `ev`.
  function NextStep(s: System, outcome: LoopOutcome, ev: JobEvent): Step {
    match s.pc
    case LoopHead => PollEventLoop(outcome, false)
    case AtJob(_) => PollActiveJob(ev, false)
    case AtCheck(_) => ReadStatus
    case Aborting(_) => AbortWork({})
    case Finalizing(_) => Finalize
    case AtGate(_) => PassGate
    case Parked(_, _) =>
      if s.queue != [] then TakeCommand else if !s.open then SeeClosed else if s.permit then TakePermit else TickElapsed
    case Handling(_) => BeginCommand
    case Submitting(_) => SubmitHeld
    case Executing => FinishImmediate(false)
    case Exited(_) => Wake
  }

  // Whatever V8 answers, the runtime thread can go on; parked, it has been woken.
  lemma DueMeansAwake(s: System, outcome: LoopOutcome, ev: JobEvent)
    requires Inv(s) && Timely(s) && DueNow(s)
    ensures Enabled(s, NextStep(s, outcome, ev)) && ByRuntimeThread(NextStep(s, outcome, ev))
  {
  }

  // Nor does time stop for any other reason: a runtime thread that has not left its loop can
  // take a step, or it is parked and time may pass.
  lemma TimeIsNotStuck(s: System, outcome: LoopOutcome, ev: JobEvent) returns (step: Step)
    requires Inv(s) && Timely(s) && !s.pc.Exited?
    ensures Enabled(s, step) && ZeroCost(s, step)
    ensures ByRuntimeThread(step) || (s.pc.Parked? && step.Advance? && Apply(s, step).now > s.now)
  {
    step := NextStep(s, outcome, ev);
    if step.TickElapsed? {
      if s.pc.idle {
        step := Advance(1);
      } else if s.now < s.pc.wakeAt {
        step := Advance(s.pc.wakeAt - s.now);
      }
    }
  }

  // ---- few steps are enough ----

  // Own steps left until the due job is answered.
  function Rank(s: System): nat {
    match s.pc
    case AtJob(_) => 1
    case Aborting(_) => 1
    case LoopHead => 2
    case AtGate(_) => 3
    case Submitting(_) => 3
    case Executing => 3
    case AtCheck(_) => 4
    case Handling(_) => 4
    case Parked(_, _) => 5
    case Finalizing(_) => 0
    case Exited(_) => 0
  }

  // Job `id` is active and due at time `now`; the jobs before it have been answered.
  ghost predicate Pending(s: System, id: nat, now: nat) {
    DueNow(s) && s.now == now && s.core.work.active.value.id == id == |s.core.work.answers|
  }

  // How a step can answer it.
  ghost predicate AnsweredBy(t: System, step: Step, id: nat, now: nat) {
    && Answered(t, id) && t.core.work.answers[id].id == id && t.core.work.answers[id].at == now
    && match step
       case PollActiveJob(_, _) => t.core.work.answers[id].result == Err(Timeout(OwnDeadline))
       case PollEventLoop(outcome, _) => outcome.Failed?
       case AbortWork(_) => true
       case _ => false
  }

  lemma DueJobIsNext(s: System)
    requires Inv(s) && DueNow(s)
    ensures Pending(s, s.core.work.active.value.id, s.now)
  {
    assert Held(s.core.work)[0] == s.core.work.active.value;
  }

  // A step answers the job, shuts the loop down, or leaves fewer steps.
  ghost predicate Progresses(s: System, step: Step, id: nat)
    requires Enabled(s, step)
  {
    var t := Apply(s, step);
    || AnsweredBy(t, step, id, s.now)
    || (ShutDown(t) && !Answered(t, id))
    || (Pending(t, id, s.now) && Rank(t) < Rank(s))
  }

  lemma LoopProgresses(s: System, step: Step, id: nat)
    requires Pending(s, id, s.now) && Enabled(s, step) && step.PollEventLoop?
    ensures Progresses(s, step, id)
  {
  }

  lemma PollProgresses(s: System, step: Step, id: nat)
    requires Pending(s, id, s.now) && Enabled(s, step) && step.PollActiveJob?
    ensures Progresses(s, step, id)
  {
    var w := s.core.work;
    var p := PollJob(w.active.value, s.now, step.ev, Rejecting(s.core), s.core.reason);
    assert p.ready == Some(Err(Timeout(OwnDeadline)));
  }

  lemma AbortProgresses(s: System, step: Step, id: nat)
    requires Pending(s, id, s.now) && Enabled(s, step) && step.AbortWork?
    ensures Progresses(s, step, id)
  {
  }

  // What the invariant says of the points at which a job can be due.
  lemma WhereDue(s: System)
    requires Inv(s) && Timely(s) && DueNow(s)
    ensures s.pc.AtGate? ==> s.core.work.justActivated
    ensures s.pc.Submitting? ==> s.pc.cmd.StartJob?
    ensures !s.pc.Finalizing?
  {
  }

  lemma MovesOn(s: System, step: Step, id: nat)
    requires Pending(s, id, s.now) && Enabled(s, step) && ByRuntimeThread(step)
    requires !step.PollEventLoop? && !step.PollActiveJob? && !step.AbortWork?
    requires s.pc.AtGate? ==> s.core.work.justActivated
    requires s.pc.Submitting? ==> s.pc.cmd.StartJob?
    requires !s.pc.Finalizing?
    ensures Progresses(s, step, id)
  {
  }

  lemma OwnStepProgresses(s: System, step: Step, id: nat)
    requires Inv(s) && Timely(s) && Pending(s, id, s.now) && Enabled(s, step) && ByRuntimeThread(step)
    ensures Progresses(s, step, id)
  {
    if step.PollEventLoop? {
      LoopProgresses(s, step, id);
    } else if step.PollActiveJob? {
      PollProgresses(s, step, id);
    } else if step.AbortWork? {
      AbortProgresses(s, step, id);
    } else {
      WhereDue(s);
      MovesOn(s, step, id);
    }
  }

  // No other thread, and no passing of time, gets in the way.
  lemma OthersLeaveItDue(s: System, step: Step, id: nat)
    requires Timely(s) && Pending(s, id, s.now) && Enabled(s, step) && ZeroCost(s, step) && !ByRuntimeThread(step)
    ensures Pending(Apply(s, step), id, s.now) && Rank(Apply(s, step)) == Rank(s)
  {
    OthersLeaveWork(s, step);
  }

  // One step of anybody's.
  lemma DueStep(s: System, step: Step, id: nat)
    requires Inv(s) && Timely(s) && Pending(s, id, s.now) && Enabled(s, step) && ZeroCost(s, step)
    ensures Inv(Apply(s, step)) && Timely(Apply(s, step))
    ensures ByRuntimeThread(step) ==> Progresses(s, step, id)
    ensures !ByRuntimeThread(step) ==> Pending(Apply(s, step), id, s.now) && Rank(Apply(s, step)) == Rank(s)
  {
    StepKeeps(s, step);
    TimelyKeeps(s, step);
    if ByRuntimeThread(step) {
      OwnStepProgresses(s, step, id);
    } else {
      OthersLeaveItDue(s, step, id);
    }
  }

  // ---- over a run ----

  function OwnSteps(run: seq<Step>): nat {
    if run == [] then 0 else (if ByRuntimeThread(run[0]) then 1 else 0) + OwnSteps(run[1..])
  }

  // Answers are never taken back.
  lemma AnswersStay(s: System, step: Step)
    requires Enabled(s, step)
    ensures s.core.work.answers <= Apply(s, step).core.work.answers
  {
    if InTurn(step) {
      AnswersStayInTurn(s, step);
    } else if !ByRuntimeThread(step) {
      OthersLeaveWork(s, step);
    }
  }

  lemma PollAnswers(c: Core, ev: JobEvent, fired: bool, now: nat)
    ensures c.work.answers <= JobPolled(c, ev, fired, now).work.answers
  {
  }

  lemma LoopAnswers(c: Core, outcome: LoopOutcome, fired: bool, now: nat)
    ensures c.work.answers <= LoopPolled(c, outcome, fired, now).0.work.answers
  {
  }

  lemma AnswersStayInTurn(s: System, step: Step)
    requires Enabled(s, step) && InTurn(step)
    ensures s.core.work.answers <= Apply(s, step).core.work.answers
  {
    match step
    case PollActiveJob(ev, fired) => PollAnswers(s.core, ev, fired, s.now);
    case PollEventLoop(outcome, fired) => LoopAnswers(s.core, outcome, fired, s.now);
    case _ =>
  }

  lemma {:induction false} AnswersStayInRun(s: System, run: seq<Step>)
    requires Legal(s, run)
    ensures s.core.work.answers <= Exec(s, run).core.work.answers
    decreases |run|
  {
    if run != [] {
      AnswersStay(s, run[0]);
      AnswersStayInRun(Apply(s, run[0]), run[1..]);
    }
  }

  lemma AnsweredByStays(t: System, rest: seq<Step>, step: Step, id: nat, now: nat)
    requires Legal(t, rest) && AnsweredBy(t, step, id, now)
    ensures AnsweredBy(Exec(t, rest), step, id, now)
  {
    AnswersStayInRun(t, rest);
    assert Exec(t, rest).core.work.answers[id] == t.core.work.answers[id];
  }

  lemma {:induction false} ShutDownStays(s: System, run: seq<Step>)
    requires Legal(s, run) && ShutDown(s)
    ensures ShutDown(Exec(s, run)) && Exec(s, run).core.work.answers == s.core.work.answers
    decreases |run|
  {
    if run != [] {
      ShutDownStays(Apply(s, run[0]), run[1..]);
    }
  }

  // Enough steps of the runtime thread, among any steps of the others, answer a due job or shut
  // the loop down; the answer is given at the due time, as a timeout unless the loop failed or
  // the work was abandoned just then; and until then no time passes.
  lemma {:induction false} DueJobIsAnswered(s: System, run: seq<Step>, id: nat) returns (n: nat)
    requires Inv(s) && Timely(s) && Pending(s, id, s.now) && Legal(s, run) && ZeroCostRun(s, run)
    ensures OwnSteps(run) >= Rank(s) ==> Answered(Exec(s, run), id) || ShutDown(Exec(s, run))
    ensures Answered(Exec(s, run), id) ==> n < |run| && AnsweredBy(Exec(s, run), run[n], id, s.now)
    ensures !Answered(Exec(s, run), id) && !ShutDown(Exec(s, run)) ==> Pending(Exec(s, run), id, s.now)
    decreases |run|
  {
    n := 0;
    if run != [] {
      var t := Apply(s, run[0]);
      DueStep(s, run[0], id);
      if Answered(t, id) {
        AnsweredByStays(t, run[1..], run[0], id, s.now);
      } else if ShutDown(t) {
        ShutDownStays(t, run[1..]);
      } else {
        var k := DueJobIsAnswered(t, run[1..], id);
        n := k + 1;
      }
    }
  }

  // Of every zero-cost run of a fresh runtime:
  // no active job is past its due time, every deadline timeout was given exactly when due, and
  // no start closure ran at or after its job's deadline;
  // and when the active job is due and the loop has not been left, the runtime thread can take a
  // step whatever V8 answers, and every continuation with five steps of its own in it answers
  // the job at that very time, unless the loop is shut down before.
  lemma FreshRunsMeetDeadlines(run: seq<Step>, more: seq<Step>)
    requires Legal(FRESH, run) && ZeroCostRun(FRESH, run)
    requires Legal(Exec(FRESH, run), more) && ZeroCostRun(Exec(FRESH, run), more)
    ensures var s := Exec(FRESH, run); var w := s.core.work;
      && (forall i :: 0 <= i < |w.answers| && w.answers[i].result == Err(Timeout(OwnDeadline)) ==>
            w.answers[i].deadline.Some? && w.answers[i].at == Due(w.answers[i].deadline.value, w.answers[i].since))
      && (w.active.Some? && w.active.value.deadline.Some? ==> s.now <= Due(w.active.value.deadline.value, w.active.value.since))
      && (forall i :: 0 <= i < |w.starts| && w.starts[i].deadline.Some? ==> w.starts[i].at < w.starts[i].deadline.value)
    ensures var s := Exec(FRESH, run);
      DueNow(s) ==> forall outcome, ev ::
        var step := NextStep(s, outcome, ev); Enabled(s, step) && ByRuntimeThread(step)
    ensures var s := Exec(FRESH, run); var t := Exec(s, more);
      DueNow(s) ==> var id := s.core.work.active.value.id;
        && (OwnSteps(more) >= 5 ==> Answered(t, id) || ShutDown(t))
        && (Answered(t, id) ==> exists n :: 0 <= n < |more| && AnsweredBy(t, more[n], id, s.now))
        && (!Answered(t, id) && !ShutDown(t) ==> DueNow(t) && t.now == s.now)
  {
    FreshInv();
    RunKeeps(FRESH, run);
    DeadlinesAreHonest(FRESH, run);
    var s := Exec(FRESH, run);
    if DueNow(s) {
      forall outcome, ev ensures Enabled(s, NextStep(s, outcome, ev)) && ByRuntimeThread(NextStep(s, outcome, ev)) {
        DueMeansAwake(s, outcome, ev);
      }
      DueJobIsNext(s);
      var n := DueJobIsAnswered(s, more, s.core.work.active.value.id);
    }
  }
}
