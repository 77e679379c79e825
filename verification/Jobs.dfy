// Asynchronous jobs: one state machine per job, advanced one `poll` at a time by the
// runtime thread.  V8 and the promise a job waits for are an oracle (`JobEvent`), and
// the clock is the argument `now`.
module Jobs {
  import opened Wrappers

  // Which clock produced a timeout: the job's own deadline check, or the watchdog thread.
  datatype TimeoutClock = OwnDeadline | WatchdogThread

  // `saysTerminated` abstracts the text search for "execution terminated".
  datatype RuntimeError =
    | JavaScript(saysTerminated: bool)
    | Timeout(clock: TimeoutClock)
    | Internal(saysTerminated: bool)
    | TerminatedError(reason: Option<string>)
    | ForceKilled

  type JobResult = Result<nat, RuntimeError>

  // What V8 and the host calls under a job can fail with: never a timeout or a termination.
  datatype Fault = Script(saysTerminated: bool) | Host(saysTerminated: bool)

  function Raise(f: Fault): RuntimeError {
    match f
    case Script(says) => JavaScript(says)
    case Host(says) => Internal(says)
  }

  function RaiseIn(r: Result<nat, Fault>): JobResult {
    match r
    case Ok(v) => Ok(v)
    case Err(f) => Err(Raise(f))
  }

  predicate IndicatesTermination(e: RuntimeError) {
    match e
    case JavaScript(says) => says
    case Timeout(_) => false
    case Internal(says) => says
    case TerminatedError(_) => true
    case ForceKilled => true
  }

  // An error that reports the termination somebody asked for becomes the terminated error.
  // The flag says that the runtime thread finalises the termination on the spot.
  function Translate(e: RuntimeError, requested: bool, reason: Option<string>): (RuntimeError, bool) {
    if requested && IndicatesTermination(e) then (TerminatedError(reason), true) else (e, false)
  }

  // What the caller is told once the job's watchdog has been joined.
  function ApplyWatchdog(result: JobResult, fired: bool): JobResult {
    if !fired then result
    else match result
      case Err(e) => if IndicatesTermination(e) then Err(Timeout(WatchdogThread)) else result
      case Ok(_) => Err(Timeout(WatchdogThread))
  }

  datatype JobKind = PromiseJob | ModuleJob

  // `Extracting` is the module job's extra state between evaluation and its namespace.
  datatype JobState = Init | Waiting | Extracting | Done

  datatype Job = Job(
    id: nat,                 // submission number
    kind: JobKind,
    deadline: Option<nat>,
    watchdog: bool,          // a watchdog thread is armed for this job
    since: nat,              // when the job became the active one
    state: JobState,
    startTaken: bool)        // the start closure has been consumed

  predicate Unstarted(j: Job) {
    j.state == Init && !j.startTaken
  }

  predicate Expired(j: Job, now: nat) {
    j.deadline.Some? && j.deadline.value <= now
  }

  // What V8 would answer if asked now.  `start` is the start closure's outcome, `promise` the
  // state of the awaited promise (or module future), `namespace` the module's exports.
  datatype Progress = Unsettled | Fulfilled(result: Result<nat, Fault>) | Rejected(fault: Fault)
  datatype JobEvent = JobEvent(start: Option<Fault>, promise: Progress, namespace: Result<nat, Fault>)

  datatype Polled = Polled(
    job: Job,
    ready: Option<JobResult>,
    started: bool,           // the start closure ran during this poll
    expired: bool,           // the deadline check failed the job
    finalises: bool)         // the error was the requested termination arriving

  function PollJob(j: Job, now: nat, ev: JobEvent, requested: bool, reason: Option<string>): Polled {
    if Expired(j, now) then
      Polled(j, Some(Err(Timeout(OwnDeadline))), false, true, false)
    else
      match j.state
      case Init =>
        if j.startTaken then
          Polled(j.(state := Done), Some(Err(Internal(false))), false, false, false)
        else
          PollInit(j, ev, requested, reason)
      case Waiting =>
        (match ev.promise
         case Unsettled => Polled(j, None, false, false, false)
         case Rejected(f) =>
           var (error, finalises) := Translate(Raise(f), requested, reason);
           Polled(j.(state := Done), Some(Err(error)), false, false, finalises)
         case Fulfilled(result) =>
           if j.kind == ModuleJob then Polled(j.(state := Extracting), None, false, false, false)
           else Polled(j.(state := Done), Some(RaiseIn(result)), false, false, false))
      case Extracting => Polled(j.(state := Done), Some(RaiseIn(ev.namespace)), false, false, false)
      case Done => Polled(j, Some(Err(Internal(false))), false, false, false)
  }

  function PollInit(j: Job, ev: JobEvent, requested: bool, reason: Option<string>): Polled {
    match ev.start
    case None => Polled(j.(state := Waiting, startTaken := true), None, true, false, false)
    case Some(f) =>
      // Only a script error can be the termination arriving while the script ran.
      var (error, finalises) := if f.Script? then Translate(Raise(f), requested, reason) else (Raise(f), false);
      var after := if j.kind == PromiseJob then j.(state := Done, startTaken := true) else j.(startTaken := true);
      Polled(after, Some(Err(error)), true, false, finalises)
  }

  // What a poll can make of a job, whatever V8 answers.
  predicate Follows(p: Polled, j: Job, now: nat) {
    && p.job.id == j.id && p.job.since == j.since && p.job.deadline == j.deadline
    && (p.started ==> !j.startTaken && p.job.startTaken && !Expired(j, now))
    && (!p.started ==> p.job.startTaken == j.startTaken)
    && (p.ready == Some(Err(Timeout(OwnDeadline))) ==> Expired(j, now))
    && (p.ready.None? ==> p.job.state != Init && p.job.startTaken && !Expired(j, now))
  }

  lemma PollFollows(j: Job, now: nat, ev: JobEvent, requested: bool, reason: Option<string>)
    requires j.state == Init <==> !j.startTaken
    ensures Follows(PollJob(j, now, ev, requested, reason), j, now)
  {
  }
}
