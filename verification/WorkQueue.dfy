// The runtime thread's work: one active job, a queue behind it, and the answers given so far.
// These functions are the atomic pieces of the dispatcher loop; `RuntimeDispatcher` executes
// them on its fields and `TerminationProtocol` interleaves them with the other threads.
module WorkQueue {
  import opened Wrappers
  import opened Jobs

  datatype Answer = Answer(id: nat, result: JobResult, at: nat, since: nat, deadline: Option<nat>)
  datatype Start = Start(id: nat, at: nat, deadline: Option<nat>)

  datatype Work = Work(
    active: Option<Job>,
    pending: seq<Job>,
    justActivated: bool,
    submitted: nat,          // jobs accepted so far; a job's id is its place in that count
    answers: seq<Answer>,    // in the order the responders were used
    starts: seq<Start>)      // every run of a start closure

  const NO_WORK := Work(None, [], false, 0, [], [])

  function Held(w: Work): seq<Job> {
    (if w.active.Some? then [w.active.value] else []) + w.pending
  }

  predicate HasWork(w: Work) {
    w.active.Some? || w.pending != []
  }

  function Activated(j: Job, now: nat): Job {
    j.(since := now)
  }

  function Submit(w: Work, kind: JobKind, deadline: Option<nat>, watchdog: bool, now: nat): Work {
    var job := Job(w.submitted, kind, deadline, watchdog, now, Init, false);
    if w.active.None? then
      w.(active := Some(job), justActivated := true, submitted := w.submitted + 1)
    else
      w.(pending := w.pending + [job], submitted := w.submitted + 1)
  }

  // Resolve the watchdog, then answer the caller.
  function Reply(j: Job, result: JobResult, fired: bool, now: nat): Answer {
    Answer(j.id, ApplyWatchdog(result, j.watchdog && fired), now, j.since, j.deadline)
  }

  function Replies(jobs: seq<Job>, result: JobResult, fired: set<nat>, now: nat): seq<Answer> {
    seq(|jobs|, i requires 0 <= i < |jobs| => Reply(jobs[i], result, jobs[i].id in fired, now))
  }

  // Finish the active job and start the next one.
  function Complete(w: Work, result: JobResult, fired: bool, now: nat): Work
    requires w.active.Some?
  {
    var answered := w.(answers := w.answers + [Reply(w.active.value, result, fired, now)]);
    if w.pending == [] then answered.(active := None)
    else answered.(active := Some(Activated(w.pending[0], now)), pending := w.pending[1..], justActivated := true)
  }

  function CancelAll(w: Work, error: RuntimeError, fired: set<nat>, now: nat): Work {
    var first := if w.active.Some? then w.answers + [Reply(w.active.value, Err(error), w.active.value.id in fired, now)] else w.answers;
    w.(active := None, pending := [], answers := first + Replies(w.pending, Err(error), fired, now))
  }

  // The state of the work between a poll and its completion.
  function AfterPoll(w: Work, p: Polled, now: nat): Work
    requires w.active.Some?
  {
    w.(active := Some(p.job),
       starts := if p.started then w.starts + [Start(p.job.id, now, p.job.deadline)] else w.starts)
  }

  // Poll the active job, if any, and complete it when it is ready.
  function PollActive(w: Work, p: Polled, fired: bool, now: nat): Work
    requires w.active.Some?
  {
    var polled := AfterPoll(w, p, now);
    if p.ready.Some? then Complete(polled, p.ready.value, fired, now) else polled
  }

  lemma RepliesPeel(jobs: seq<Job>, result: JobResult, fired: set<nat>, now: nat)
    requires jobs != []
    ensures Replies(jobs, result, fired, now)
         == [Reply(jobs[0], result, jobs[0].id in fired, now)] + Replies(jobs[1..], result, fired, now)
  {
  }

  // ---- what every reachable work satisfies ----

  // Answered jobs, then the active one, then the queue: together exactly the submitted jobs,
  // each once and in submission order.
  ghost predicate InOrder(w: Work) {
    && |w.answers| + |Held(w)| == w.submitted
    && (forall i :: 0 <= i < |w.answers| ==> w.answers[i].id == i)
    && (forall k :: 0 <= k < |Held(w)| ==> Held(w)[k].id == |w.answers| + k)
    && (w.active.None? ==> w.pending == [])
  }

  // No start closure runs twice, none runs at or after its job's deadline.
  ghost predicate StartsHonest(w: Work) {
    && (forall i :: 0 <= i < |w.starts| ==>
          && (w.starts[i].deadline.Some? ==> w.starts[i].at < w.starts[i].deadline.value)
          && w.starts[i].id < |w.answers| + (if w.active.Some? && w.active.value.startTaken then 1 else 0))
    && (forall i, j :: 0 <= i < j < |w.starts| ==> w.starts[i].id < w.starts[j].id)
  }

  ghost predicate TimeoutsHonest(w: Work) {
    forall i :: 0 <= i < |w.answers| && w.answers[i].result == Err(Timeout(OwnDeadline)) ==>
      w.answers[i].deadline.Some? && w.answers[i].deadline.value <= w.answers[i].at
  }

  ghost predicate BaseInv(w: Work) {
    && InOrder(w)
    && StartsHonest(w)
    && TimeoutsHonest(w)
    && (forall k :: 0 <= k < |w.pending| ==> Unstarted(w.pending[k]))
  }

  ghost predicate WorkInv(w: Work) {
    && BaseInv(w)
    && (w.active.Some? ==> (w.active.value.state == Init <==> !w.active.value.startTaken))
  }

  lemma SubmitKeeps(w: Work, kind: JobKind, deadline: Option<nat>, watchdog: bool, now: nat)
    requires WorkInv(w)
    ensures WorkInv(Submit(w, kind, deadline, watchdog, now))
    ensures Held(Submit(w, kind, deadline, watchdog, now))
         == Held(w) + [Job(w.submitted, kind, deadline, watchdog, now, Init, false)]
  {
    assert Held(Submit(w, kind, deadline, watchdog, now))
        == Held(w) + [Job(w.submitted, kind, deadline, watchdog, now, Init, false)];
  }

  lemma CompleteKeeps(w: Work, result: JobResult, fired: bool, now: nat)
    requires BaseInv(w) && w.active.Some?
    requires result == Err(Timeout(OwnDeadline)) ==> Expired(w.active.value, now)
    ensures WorkInv(Complete(w, result, fired, now))
    ensures |Held(Complete(w, result, fired, now))| == |Held(w)| - 1
  {
    var done := Complete(w, result, fired, now);
    assert Held(w) == [w.active.value] + w.pending;
    assert w.active.value.id == |w.answers| by { assert Held(w)[0] == w.active.value; }
    assert |Held(done)| == |w.pending|;
    forall k | 0 <= k < |Held(done)| ensures Held(done)[k].id == |done.answers| + k {
      assert Held(w)[k + 1] == w.pending[k];
    }
  }

  lemma CancelKeeps(w: Work, error: RuntimeError, fired: set<nat>, now: nat)
    requires WorkInv(w) && error != Timeout(OwnDeadline)
    ensures WorkInv(CancelAll(w, error, fired, now))
    ensures |CancelAll(w, error, fired, now).answers| == w.submitted
  {
    var c := CancelAll(w, error, fired, now);
    var n := |c.answers| - |w.pending|;
    forall i | |w.answers| <= i < |c.answers| ensures c.answers[i].id == i && c.answers[i].result != Err(Timeout(OwnDeadline)) {
      if i < n {
        assert Held(w)[0] == w.active.value;
      } else {
        assert c.answers[i] == Reply(w.pending[i - n], Err(error), w.pending[i - n].id in fired, now);
        assert Held(w)[i - |w.answers|] == w.pending[i - n];
      }
    }
  }

  lemma AfterPollKeepsOrder(w: Work, p: Polled, now: nat)
    requires InOrder(w) && w.active.Some? && Follows(p, w.active.value, now)
    ensures InOrder(AfterPoll(w, p, now))
  {
    var polled := AfterPoll(w, p, now);
    assert Held(w)[0] == w.active.value;
    forall k | 0 <= k < |Held(polled)| ensures Held(polled)[k].id == |w.answers| + k {
      assert k > 0 ==> Held(polled)[k] == Held(w)[k];
    }
  }

  lemma AfterPollKeepsStarts(w: Work, p: Polled, now: nat)
    requires InOrder(w) && StartsHonest(w) && w.active.Some? && Follows(p, w.active.value, now)
    ensures StartsHonest(AfterPoll(w, p, now))
  {
    assert Held(w)[0] == w.active.value;
  }

  lemma AfterPollKeeps(w: Work, p: Polled, now: nat)
    requires WorkInv(w) && w.active.Some? && Follows(p, w.active.value, now)
    ensures BaseInv(AfterPoll(w, p, now))
  {
    AfterPollKeepsOrder(w, p, now);
    AfterPollKeepsStarts(w, p, now);
  }

  lemma PollKeeps(w: Work, now: nat, ev: JobEvent, requested: bool, reason: Option<string>, fired: bool)
    requires WorkInv(w) && w.active.Some?
    ensures WorkInv(PollActive(w, PollJob(w.active.value, now, ev, requested, reason), fired, now))
  {
    PollFollows(w.active.value, now, ev, requested, reason);
    PolledKeeps(w, PollJob(w.active.value, now, ev, requested, reason), fired, now);
  }

  lemma PolledKeeps(w: Work, p: Polled, fired: bool, now: nat)
    requires WorkInv(w) && w.active.Some? && Follows(p, w.active.value, now)
    ensures WorkInv(PollActive(w, p, fired, now))
  {
    AfterPollKeeps(w, p, now);
    if p.ready.Some? {
      CompleteKeeps(AfterPoll(w, p, now), p.ready.value, fired, now);
    }
  }
}
