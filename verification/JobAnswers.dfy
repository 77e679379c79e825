// What a caller is told, case by case and over every run: which of the job's own outcomes, and
// what a watchdog makes of it.
module JobAnswers {
  import opened Wrappers
  import opened Jobs
  import opened WorkQueue
  import opened DispatcherCore

  // ---- the vocabulary of the answers ----

  predicate InTime(j: Job, now: nat) {
    j.deadline.Some? ==> now < j.deadline.value
  }

  // Results that a termination can have caused.
  predicate Interrupted(r: JobResult) {
    r == Err(JavaScript(true)) || r == Err(Internal(true)) || r == Err(ForceKilled)
    || (r.Err? && r.error.TerminatedError?)
  }

  // A watchdog that fired turns a success or an interruption into its timeout, and leaves every
  // other error alone.
  predicate Told(result: JobResult, fired: bool, told: JobResult) {
    told == if fired && (result.Ok? || Interrupted(result)) then Err(Timeout(WatchdogThread)) else result
  }

  // An error that reports the termination somebody asked for becomes the terminated error.
  function Arriving(error: RuntimeError, asked: bool, reason: Option<string>): RuntimeError {
    if asked && Interrupted(Err(error)) then TerminatedError(reason) else error
  }

  function ErrorOf(f: Fault): RuntimeError {
    match f
    case Script(says) => JavaScript(says)
    case Host(says) => Internal(says)
  }

  function ResultOf(r: Result<nat, Fault>): JobResult {
    match r
    case Ok(v) => Ok(v)
    case Err(f) => Err(ErrorOf(f))
  }

  // The active job, and no other, has been answered, and the next one in the queue starts now.
  ghost predicate Answers(w: Work, after: Work, told: JobResult, now: nat)
    requires w.active.Some?
  {
    var j := w.active.value;
    && after.answers == w.answers + [Answer(j.id, told, now, j.since, j.deadline)]
    && (w.pending == [] ==> after.active == None && after.pending == [])
    && (w.pending != [] ==>
          after.active == Some(w.pending[0].(since := now)) && after.pending == w.pending[1..] && after.justActivated)
  }

  // The active job has moved on and nobody has been answered.
  ghost predicate GoesOn(w: Work, after: Work, state: JobState)
    requires w.active.Some?
  {
    && after.active == Some(w.active.value.(state := state, startTaken := true))
    && after.pending == w.pending && after.answers == w.answers && after.justActivated == w.justActivated
  }

  // Every closure that ran, ran now.
  ghost predicate StartRan(w: Work, after: Work, now: nat)
    requires w.active.Some?
  {
    after.starts == w.starts + [Start(w.active.value.id, now, w.active.value.deadline)]
  }

  lemma ToldByWatchdog(result: JobResult, fired: bool)
    ensures Told(result, fired, ApplyWatchdog(result, fired))
  {
  }

  lemma InterruptedIndicates(e: RuntimeError)
    ensures IndicatesTermination(e) <==> Interrupted(Err(e))
  {
  }

  // ---- one poll ----

  // What one poll of a job does, whatever the order in which the queue is served: `told` is
  // `result` as the job's watchdog leaves it.
  ghost predicate Settled(c: Core, ev: JobEvent, fired: bool, now: nat, result: JobResult)
    requires c.work.active.Some?
  {
    exists told :: Told(result, c.work.active.value.watchdog && fired, told)
      && Answers(c.work, JobPolled(c, ev, fired, now).work, told, now)
  }

  lemma CompleteAnswers(w: Work, result: JobResult, fired: bool, now: nat)
    requires w.active.Some?
    ensures exists told :: Told(result, w.active.value.watchdog && fired, told) && Answers(w, Complete(w, result, fired, now), told, now)
    ensures Complete(w, result, fired, now).starts == w.starts
  {
    var told := ApplyWatchdog(result, w.active.value.watchdog && fired);
    ToldByWatchdog(result, w.active.value.watchdog && fired);
    assert Answers(w, Complete(w, result, fired, now), told, now);
  }

  lemma PollSettles(c: Core, ev: JobEvent, fired: bool, now: nat, p: Polled)
    requires c.work.active.Some? && p.ready.Some?
    requires p == PollJob(c.work.active.value, now, ev, Rejecting(c), c.reason)
    ensures Settled(c, ev, fired, now, p.ready.value)
    ensures p.started ==> StartRan(c.work, JobPolled(c, ev, fired, now).work, now)
    ensures !p.started ==> JobPolled(c, ev, fired, now).work.starts == c.work.starts
  {
    var polled := AfterPoll(c.work, p, now);
    assert p.job == c.work.active.value.(state := p.job.state, startTaken := p.job.startTaken);
    CompleteAnswers(polled, p.ready.value, fired, now);
    var told :| Told(p.ready.value, polled.active.value.watchdog && fired, told)
      && Answers(polled, Complete(polled, p.ready.value, fired, now), told, now);
    assert Answers(c.work, JobPolled(c, ev, fired, now).work, told, now);
  }

  // At its deadline a job is answered with its own timeout, whatever V8 has for it, and its
  // start closure no longer runs; the reason is stored for whoever asks later.
  lemma ExpiredIsAnswered(c: Core, ev: JobEvent, fired: bool, now: nat)
    requires c.work.active.Some? && !InTime(c.work.active.value, now)
    ensures Answers(c.work, JobPolled(c, ev, fired, now).work, Err(Timeout(OwnDeadline)), now)
    ensures JobPolled(c, ev, fired, now).work.starts == c.work.starts
    ensures JobPolled(c, ev, fired, now).reason == if c.reason.None? then Some("timed out") else c.reason
  {
    PollSettles(c, ev, fired, now, PollJob(c.work.active.value, now, ev, Rejecting(c), c.reason));
  }

  // A start closure that succeeds leaves the job waiting for its promise; it has run once.
  lemma StartedWaits(c: Core, ev: JobEvent, fired: bool, now: nat)
    requires c.work.active.Some? && InTime(c.work.active.value, now) && Unstarted(c.work.active.value) && ev.start.None?
    ensures GoesOn(c.work, JobPolled(c, ev, fired, now).work, Waiting)
    ensures StartRan(c.work, JobPolled(c, ev, fired, now).work, now)
  {
  }

  // One that fails is answered at once; only a script's own error can be the termination
  // arriving while it ran.
  lemma FailedStartIsAnswered(c: Core, ev: JobEvent, fired: bool, now: nat)
    requires c.work.active.Some? && InTime(c.work.active.value, now) && Unstarted(c.work.active.value) && ev.start.Some?
    ensures var f := ev.start.value; var asked := c.terminated || c.status != Running;
      Settled(c, ev, fired, now, Err(Arriving(ErrorOf(f), asked && f.Script?, c.reason)))
    ensures StartRan(c.work, JobPolled(c, ev, fired, now).work, now)
  {
    PollSettles(c, ev, fired, now, PollJob(c.work.active.value, now, ev, Rejecting(c), c.reason));
    InterruptedIndicates(ErrorOf(ev.start.value));
  }

  lemma UnsettledWaits(c: Core, ev: JobEvent, fired: bool, now: nat)
    requires c.work.active.Some? && InTime(c.work.active.value, now) && c.work.active.value.startTaken
    requires c.work.active.value.state == Waiting && ev.promise.Unsettled?
    ensures JobPolled(c, ev, fired, now) == c
  {
  }

  // A fulfilled promise is the job's answer.
  lemma FulfilledIsAnswered(c: Core, ev: JobEvent, fired: bool, now: nat)
    requires c.work.active.Some? && InTime(c.work.active.value, now)
    requires c.work.active.value.state == Waiting && c.work.active.value.kind == PromiseJob && ev.promise.Fulfilled?
    ensures Settled(c, ev, fired, now, ResultOf(ev.promise.result))
    ensures JobPolled(c, ev, fired, now).work.starts == c.work.starts
  {
    PollSettles(c, ev, fired, now, PollJob(c.work.active.value, now, ev, Rejecting(c), c.reason));
  }

  // So a value reaches its caller unchanged when no watchdog fired on the way.
  lemma ValueArrives(c: Core, ev: JobEvent, fired: bool, now: nat, v: nat)
    requires c.work.active.Some? && InTime(c.work.active.value, now)
    requires c.work.active.value.state == Waiting && c.work.active.value.kind == PromiseJob && ev.promise == Fulfilled(Ok(v))
    ensures var j := c.work.active.value;
      JobPolled(c, ev, fired, now).work.answers
        == c.work.answers + [Answer(j.id, if j.watchdog && fired then Err(Timeout(WatchdogThread)) else Ok(v), now, j.since, j.deadline)]
  {
    FulfilledIsAnswered(c, ev, fired, now);
  }

  // A rejection is the job's error, or the termination arriving.
  lemma RejectedIsAnswered(c: Core, ev: JobEvent, fired: bool, now: nat)
    requires c.work.active.Some? && InTime(c.work.active.value, now) && c.work.active.value.state == Waiting && ev.promise.Rejected?
    ensures var asked := c.terminated || c.status != Running;
      Settled(c, ev, fired, now, Err(Arriving(ErrorOf(ev.promise.fault), asked, c.reason)))
    ensures JobPolled(c, ev, fired, now).work.starts == c.work.starts
  {
    PollSettles(c, ev, fired, now, PollJob(c.work.active.value, now, ev, Rejecting(c), c.reason));
    InterruptedIndicates(ErrorOf(ev.promise.fault));
  }

  // An evaluated module takes one more poll, which answers with its namespace.
  lemma EvaluatedExtracts(c: Core, ev: JobEvent, fired: bool, now: nat)
    requires c.work.active.Some? && InTime(c.work.active.value, now) && c.work.active.value.startTaken
    requires c.work.active.value.state == Waiting && c.work.active.value.kind == ModuleJob && ev.promise.Fulfilled?
    ensures GoesOn(c.work, JobPolled(c, ev, fired, now).work, Extracting)
  {
  }

  lemma NamespaceIsAnswered(c: Core, ev: JobEvent, fired: bool, now: nat)
    requires c.work.active.Some? && InTime(c.work.active.value, now) && c.work.active.value.state == Extracting
    ensures Settled(c, ev, fired, now, ResultOf(ev.namespace))
    ensures JobPolled(c, ev, fired, now).work.starts == c.work.starts
  {
    PollSettles(c, ev, fired, now, PollJob(c.work.active.value, now, ev, Rejecting(c), c.reason));
  }

  // A termination that arrives through the job finalises on the spot; nothing else does.
  lemma ArrivalFinalises(c: Core, ev: JobEvent, fired: bool, now: nat)
    requires c.work.active.Some? && InTime(c.work.active.value, now) && (c.terminated ==> c.status == Terminated)
    requires Unstarted(c.work.active.value) || c.work.active.value.state == Waiting || c.work.active.value.state == Extracting
    ensures var j, d := c.work.active.value, JobPolled(c, ev, fired, now);
      var arrived := (c.terminated || c.status != Running) &&
        ((j.state == Init && ev.start == Some(Script(true))) || (j.state == Waiting && ev.promise.Rejected? && ev.promise.fault.saysTerminated));
      d.reason == c.reason && (if arrived then d.terminated && d.status == Terminated else d.terminated == c.terminated && d.status == c.status)
  {
  }

  // ---- the other two ways ----

  // A fatal error of the event loop is the active job's answer and restarts the turn, unless it
  // is the termination arriving, which is left to the job's own poll.
  lemma LoopFailureIsAnswered(c: Core, f: Fault, fired: bool, now: nat)
    requires c.terminated ==> c.status == Terminated
    ensures var (d, drained) := LoopPolled(c, Failed(f), fired, now);
      if f.saysTerminated then
        drained == Some(true) && d.work == c.work && d.reason == c.reason
        && (if c.status != Running then d.terminated && d.status == Terminated else d == c)
      else
        drained == None && d == c.(work := d.work)
        && (c.work.active.None? ==> d.work == c.work)
        && (c.work.active.Some? ==> Answers(c.work, d.work, Err(ErrorOf(f)), now) && d.work.starts == c.work.starts)
  {
    if c.work.active.Some? && !f.saysTerminated {
      CompleteAnswers(c.work, Err(ErrorOf(f)), fired, now);
    }
  }

  lemma QuietLoop(c: Core, fired: bool, now: nat)
    ensures LoopPolled(c, Drained, fired, now) == (c, Some(true))
    ensures LoopPolled(c, Outstanding, fired, now) == (c, Some(false))
  {
  }

  // The answer an abandoned job gets.
  function Abandoned(j: Job, reason: Option<string>, fired: bool, now: nat): Answer {
    Answer(j.id, if j.watchdog && fired then Err(Timeout(WatchdogThread)) else Err(TerminatedError(reason)), now, j.since, j.deadline)
  }

  // Abandoned work: every held job, in order, is told that the runtime was terminated and why.
  lemma AbandonedAreAnswered(c: Core, fired: set<nat>, now: nat)
    requires c.work.active.None? ==> c.work.pending == []
    ensures var d := Aborted(c, fired, now); var held := Held(c.work);
      && d == c.(work := d.work) && d.work.starts == c.work.starts && d.work.submitted == c.work.submitted
      && |d.work.answers| == |c.work.answers| + |held| && c.work.answers <= d.work.answers
      && forall k :: 0 <= k < |held| ==>
           d.work.answers[|c.work.answers| + k] == Abandoned(held[k], c.reason, held[k].id in fired, now)
  {
    var d, held := Aborted(c, fired, now), Held(c.work);
    var error := Err(TerminatedError(c.reason));
    forall k | 0 <= k < |held|
      ensures d.work.answers[|c.work.answers| + k] == Abandoned(held[k], c.reason, held[k].id in fired, now)
    {
      assert d.work.answers[|c.work.answers| + k] == Reply(held[k], error, held[k].id in fired, now);
      ToldByWatchdog(error, held[k].watchdog && held[k].id in fired);
    }
  }
}
