// Deadlines under zero-cost steps: time passes only while the runtime thread is parked, and
// never beyond the wake-up it asked for.
module Deadlines {
  import opened Wrappers
  import opened Jobs
  import opened WorkQueue
  import opened DispatcherCore
  import opened TerminationProtocol

  predicate ZeroCost(s: System, step: Step) {
    step.Advance? ==> s.pc.Parked? && (s.pc.idle || s.now + step.dt <= s.pc.wakeAt)
  }

  predicate ZeroCostRun(s: System, run: seq<Step>)
    requires Legal(s, run)
    decreases |run|
  {
    run == [] || (ZeroCost(s, run[0]) && ZeroCostRun(Apply(s, run[0]), run[1..]))
  }

  function Later(a: nat, b: nat): nat {
    if a < b then b else a
  }

  // The moment a job with this deadline is due: its deadline, or its activation if that came later.
  function Due(deadline: nat, since: nat): nat {
    Later(deadline, since)
  }

  // Every deadline timeout was delivered exactly when it was due.
  ghost predicate AnsweredWhenDue(w: Work) {
    forall i :: 0 <= i < |w.answers| && w.answers[i].result == Err(Timeout(OwnDeadline)) ==>
      w.answers[i].deadline.Some? && w.answers[i].at == Due(w.answers[i].deadline.value, w.answers[i].since)
  }

  // The active job is never overdue.
  ghost predicate NotOverdue(w: Work, now: nat) {
    w.active.Some? ==>
      && w.active.value.since <= now
      && (w.active.value.deadline.Some? ==> now <= Due(w.active.value.deadline.value, w.active.value.since))
  }

  // A job that survived its poll in this turn still has time left.
  ghost predicate PolledInTime(s: System) {
    var w := s.core.work;
    (s.pc.AtCheck? || s.pc.AtGate?) && w.active.Some? && w.active.value.deadline.Some? && !Unpolled(w) ==>
      s.now < w.active.value.deadline.value
  }

  ghost predicate SleepsShort(s: System) {
    s.pc.Parked? ==>
      && (s.pc.idle ==> !HasWork(s.core.work))
      && (!s.pc.idle ==> s.now <= s.pc.wakeAt)
      && (s.core.work.active.Some? && s.core.work.active.value.deadline.Some? ==>
            s.pc.wakeAt <= s.core.work.active.value.deadline.value)
  }

  ghost predicate Timely(s: System) {
    AnsweredWhenDue(s.core.work) && NotOverdue(s.core.work, s.now) && PolledInTime(s) && SleepsShort(s)
  }

  lemma CompleteWhenDue(w: Work, result: JobResult, fired: bool, now: nat)
    requires w.active.Some? && AnsweredWhenDue(w) && NotOverdue(w, now)
    requires result == Err(Timeout(OwnDeadline)) ==> Expired(w.active.value, now)
    ensures AnsweredWhenDue(Complete(w, result, fired, now)) && NotOverdue(Complete(w, result, fired, now), now)
  {
  }

  // The part of the invariant deadlines depend on.
  ghost predicate QueueFresh(w: Work) {
    forall k :: 0 <= k < |w.pending| ==> Unstarted(w.pending[k])
  }

  lemma PollWhenDue(w: Work, p: Polled, fired: bool, now: nat)
    requires w.active.Some? && QueueFresh(w) && AnsweredWhenDue(w) && NotOverdue(w, now)
    requires Follows(p, w.active.value, now)
    ensures var w' := PollActive(w, p, fired, now);
      && AnsweredWhenDue(w') && NotOverdue(w', now)
      && (w'.active.Some? && w'.active.value.deadline.Some? && !Unpolled(w') ==> now < w'.active.value.deadline.value)
  {
    var polled := AfterPoll(w, p, now);
    assert polled.answers == w.answers;
    if p.ready.Some? {
      CompleteWhenDue(polled, p.ready.value, fired, now);
    }
  }

  lemma CancelWhenDue(w: Work, reason: Option<string>, fired: set<nat>, now: nat)
    requires AnsweredWhenDue(w)
    ensures AnsweredWhenDue(CancelAll(w, TerminatedError(reason), fired, now))
  {
    var c := CancelAll(w, TerminatedError(reason), fired, now);
    forall i | |w.answers| <= i < |c.answers| ensures c.answers[i].result != Err(Timeout(OwnDeadline)) {
      var n := |c.answers| - |w.pending|;
      if n <= i {
        assert c.answers[i] == Reply(w.pending[i - n], Err(TerminatedError(reason)), w.pending[i - n].id in fired, now);
      }
    }
  }

  lemma LoopTimely(s: System, outcome: LoopOutcome, fired: bool)
    requires Timely(s) && s.pc.LoopHead?
    ensures Timely(Apply(s, PollEventLoop(outcome, fired)))
  {
    if outcome.Failed? && s.core.work.active.Some? {
      var (error, _) := Translate(Raise(outcome.fault), Rejecting(s.core), s.core.reason);
      CompleteWhenDue(s.core.work, Err(error), fired, s.now);
    }
  }

  lemma PollTimely(s: System, ev: JobEvent, fired: bool)
    requires WorkInv(s.core.work) && Timely(s) && s.pc.AtJob?
    ensures Timely(Apply(s, PollActiveJob(ev, fired)))
  {
    var w := s.core.work;
    if w.active.Some? {
      var p := PollJob(w.active.value, s.now, ev, Rejecting(s.core), s.core.reason);
      PollFollows(w.active.value, s.now, ev, Rejecting(s.core), s.core.reason);
      PollWhenDue(w, p, fired, s.now);
      assert Apply(s, PollActiveJob(ev, fired)).core.work == PollActive(w, p, fired, s.now);
    }
  }

  lemma GateTimely(s: System)
    requires FreshJobsPolled(s) && Timely(s) && s.pc.AtGate?
    ensures Timely(Apply(s, PassGate))
  {
  }

  lemma SubmitTimely(s: System)
    requires Timely(s) && Enabled(s, SubmitHeld)
    ensures Timely(Apply(s, SubmitHeld))
  {
  }

  // The other steps of the runtime thread leave the work alone.
  lemma WaitTimely(s: System, step: Step)
    requires Timely(s) && Enabled(s, step) && ByRuntimeThread(step)
    requires step.ReadStatus? || step.Finalize? || (!InTurn(step) && !step.SubmitHeld?)
    ensures Timely(Apply(s, step))
  {
    var t := Apply(s, step);
    OwnLeavesCallers(s, step);
    assert t.core.work == s.core.work && !t.pc.Parked?;
    assert t.pc.AtGate? ==> s.pc.AtCheck?;
  }

  lemma OthersTimely(s: System, step: Step)
    requires Timely(s) && Enabled(s, step) && ZeroCost(s, step) && !ByRuntimeThread(step)
    ensures Timely(Apply(s, step))
  {
    OthersLeaveWork(s, step);
    assert step.Advance? || Apply(s, step).now == s.now;
  }

  lemma OtherStepTimely(s: System, step: Step)
    requires Timely(s) && Enabled(s, step) && ZeroCost(s, step)
    requires !step.PollEventLoop? && !step.PollActiveJob? && !step.PassGate? && !step.AbortWork? && !step.SubmitHeld?
    ensures Timely(Apply(s, step))
  {
    if ByRuntimeThread(step) {
      WaitTimely(s, step);
    } else {
      OthersTimely(s, step);
    }
  }

  lemma TimelyKeeps(s: System, step: Step)
    requires WorkInv(s.core.work) && FreshJobsPolled(s)
    requires Timely(s) && Enabled(s, step) && ZeroCost(s, step)
    ensures Timely(Apply(s, step))
  {
    match step
    case PollEventLoop(outcome, fired) => LoopTimely(s, outcome, fired);
    case PollActiveJob(ev, fired) => PollTimely(s, ev, fired);
    case AbortWork(firedJobs) => CancelWhenDue(s.core.work, s.core.reason, firedJobs, s.now);
    case PassGate => GateTimely(s);
    case SubmitHeld => SubmitTimely(s);
    case _ => OtherStepTimely(s, step);
  }

  // In every zero-cost run an active job is answered at its deadline if nothing settles it
  // before: no job is ever overdue, and each deadline timeout carries exactly its due time.
  lemma {:induction false} DeadlinesAreHonest(s: System, run: seq<Step>)
    requires Inv(s) && Timely(s) && Legal(s, run) && ZeroCostRun(s, run)
    ensures Timely(Exec(s, run))
    decreases |run|
  {
    if run != [] {
      StepKeeps(s, run[0]);
      TimelyKeeps(s, run[0]);
      DeadlinesAreHonest(Apply(s, run[0]), run[1..]);
    }
  }

  // At the due time the next poll is the timeout, whatever the promise says.
  lemma DueMeansTimeout(s: System, ev: JobEvent, fired: bool)
    requires Inv(s) && Timely(s) && s.pc.AtJob?
    requires s.core.work.active.Some? && s.core.work.active.value.deadline.Some?
    requires s.now == Due(s.core.work.active.value.deadline.value, s.core.work.active.value.since)
    ensures var w := Apply(s, PollActiveJob(ev, fired)).core.work;
      && |w.answers| == |s.core.work.answers| + 1
      && w.answers[|s.core.work.answers|].id == s.core.work.active.value.id
      && w.answers[|s.core.work.answers|].result == Err(Timeout(OwnDeadline))
      && w.starts == s.core.work.starts
  {
  }
}
