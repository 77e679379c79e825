// Where a job and its answer come from, over every run: the command that submitted it, the clock
// that command set, and the step that settled it with what V8 had for that very job.
module JobHistory {
  import opened Wrappers
  import opened Jobs
  import opened WorkQueue
  import opened DispatcherCore
  import opened TerminationProtocol
  import opened Deadlines
  import A = JobAnswers

  // ---- runs, one step at a time from the end ----

  lemma {:induction false} LegalPrefix(s: System, run: seq<Step>, n: nat)
    requires Legal(s, run) && n <= |run|
    ensures Legal(s, run[..n])
    decreases n
  {
    if n > 0 {
      LegalPrefix(Apply(s, run[0]), run[1..], n - 1);
      assert run[..n][1..] == run[1..][..n - 1];
    }
  }

  // The state in which step n of a run of a fresh runtime is taken.
  function At(run: seq<Step>, n: nat): System
    requires Legal(FRESH, run) && n <= |run|
  {
    LegalPrefix(FRESH, run, n);
    Exec(FRESH, run[..n])
  }

  lemma {:induction false} StepAtEnd(s: System, run: seq<Step>)
    requires Legal(s, run) && run != []
    ensures var front := run[..|run| - 1];
      Legal(s, front) && Enabled(Exec(s, front), run[|run| - 1]) && Exec(s, run) == Apply(Exec(s, front), run[|run| - 1])
    decreases |run|
  {
    if |run| == 1 {
      assert run[..0] == [] && run[1..] == [];
    } else {
      StepAtEnd(Apply(s, run[0]), run[1..]);
      assert run[1..][..|run| - 2] == run[..|run| - 1][1..];
    }
  }

  // Step n of a run leads from its state to the next.
  lemma StepAt(run: seq<Step>, n: nat)
    requires Legal(FRESH, run) && n < |run|
    ensures Enabled(At(run, n), run[n]) && At(run, n + 1) == Apply(At(run, n), run[n])
  {
    LegalPrefix(FRESH, run, n + 1);
    StepAtEnd(FRESH, run[..n + 1]);
    assert run[..n + 1][..n] == run[..n];
  }

  lemma AtPrefix(run: seq<Step>, m: nat, n: nat)
    requires Legal(FRESH, run) && n <= m <= |run|
    ensures Legal(FRESH, run[..m]) && At(run[..m], n) == At(run, n)
  {
    LegalPrefix(FRESH, run, m);
    assert run[..m][..n] == run[..n];
  }

  lemma AtEnd(run: seq<Step>)
    requires Legal(FRESH, run)
    ensures At(run, |run|) == Exec(FRESH, run)
  {
    assert run[..|run|] == run;
  }

  lemma AtKeeps(run: seq<Step>, n: nat)
    requires Legal(FRESH, run) && n <= |run|
    ensures Inv(At(run, n))
  {
    FreshInv();
    LegalPrefix(FRESH, run, n);
    RunKeeps(FRESH, run[..n]);
  }

  // ---- commands ----

  // The commands put into the channel, in order; a Terminate finds it closed or gets in.
  function SentBy(s: System, step: Step): seq<Command> {
    match step
    case SendCommand(cmd) => [cmd]
    case SendTerminate(_) => if s.open then [TerminateCommand] else []
    case _ => []
  }

  function Commands(s: System, run: seq<Step>): seq<Command>
    requires Legal(s, run)
    decreases |run|
  {
    if run == [] then [] else SentBy(s, run[0]) + Commands(Apply(s, run[0]), run[1..])
  }

  // The commands the runtime thread begins to serve, in order.
  function Begun(s: System, run: seq<Step>): seq<Command>
    requires Legal(s, run)
    decreases |run|
  {
    if run == [] then [] else BegunBy(s, run[0]) + Begun(Apply(s, run[0]), run[1..])
  }

  // What the runtime thread has taken out and not begun, then what is still in the channel.
  function Ahead(s: System): seq<Command> {
    (if s.pc.Handling? then [s.pc.cmd] else []) + s.queue
  }

  function BegunBy(s: System, step: Step): seq<Command>
    requires Enabled(s, step)
  {
    if step.BeginCommand? then [s.pc.cmd] else []
  }

  ghost predicate QueueMoves(s: System, step: Step)
    requires Enabled(s, step)
  {
    Ahead(s) + SentBy(s, step) == BegunBy(s, step) + Ahead(Apply(s, step))
  }

  lemma TurnKeepsQueue(s: System, step: Step)
    requires Enabled(s, step) && InTurn(step)
    ensures QueueMoves(s, step)
  {
    var t := Apply(s, step);
    assert t == TurnStep(s, step) && t.queue == s.queue && !t.pc.Handling?;
  }

  lemma WakeTakesFirst(s: System, step: Step)
    requires Enabled(s, step) && ByRuntimeThread(step) && !InTurn(step)
    ensures QueueMoves(s, step)
  {
    var t := Apply(s, step);
    assert t == WakeStep(s, step);
    if step.TakeCommand? {
      assert s.queue == [s.queue[0]] + s.queue[1..];
    }
  }

  lemma OthersSendLast(s: System, step: Step)
    requires Enabled(s, step) && !ByRuntimeThread(step)
    ensures QueueMoves(s, step)
  {
    var t := Apply(s, step);
    OthersLeaveWork(s, step);
    assert t.queue == s.queue + SentBy(s, step);
  }

  lemma StepMovesQueue(s: System, step: Step)
    requires Enabled(s, step)
    ensures QueueMoves(s, step)
  {
    if InTurn(step) {
      TurnKeepsQueue(s, step);
    } else if ByRuntimeThread(step) {
      WakeTakesFirst(s, step);
    } else {
      OthersSendLast(s, step);
    }
  }

  lemma Regroup<T>(x: seq<T>, sent: seq<T>, rest: seq<T>, begun: seq<T>, mid: seq<T>, more: seq<T>, end: seq<T>)
    requires x + sent == begun + mid && mid + rest == more + end
    ensures x + (sent + rest) == begun + more + end
  {
    assert x + (sent + rest) == (x + sent) + rest;
    assert (begun + mid) + rest == begun + (mid + rest);
    assert begun + (more + end) == begun + more + end;
  }

  // Commands are served in the order in which they were sent, none twice and none left out.
  lemma {:induction false} CommandsInOrder(s: System, run: seq<Step>)
    requires Legal(s, run)
    ensures Ahead(s) + Commands(s, run) == Begun(s, run) + Ahead(Exec(s, run))
    decreases |run|
  {
    if run != [] {
      var t, rest := Apply(s, run[0]), run[1..];
      StepMovesQueue(s, run[0]);
      CommandsInOrder(t, rest);
      Regroup(Ahead(s), SentBy(s, run[0]), Commands(t, rest), BegunBy(s, run[0]), Ahead(t), Begun(t, rest), Ahead(Exec(t, rest)));
    }
  }

  // ---- the winner's command ----

  // The caller that won through a handle is on its way to send Terminate, or has sent it.
  predicate WinnerOnItsWay(s: System, caller: nat) {
    s.terminatesSent == 1 ||
    (caller in s.callers && (s.callers[caller] == Swapped(true, true) || s.callers[caller] == MustSend))
  }

  lemma WinnerStaysOnItsWay(s: System, step: Step, caller: nat)
    requires OneWinner(s) && Enabled(s, step) && WinnerOnItsWay(s, caller)
    ensures WinnerOnItsWay(Apply(s, step), caller)
  {
    if ByRuntimeThread(step) {
      OwnLeavesCallers(s, step);
    } else if step.Swap? || step.Notify? || step.SendTerminate? {
      WinnerStaysThrough(s, step, caller);
    } else {
      var t := Apply(s, step);
      assert t == OtherStep(s, step) && t.callers == s.callers && t.terminatesSent == s.terminatesSent;
    }
  }

  lemma WinnerStaysThrough(s: System, step: Step, caller: nat)
    requires OneWinner(s) && Enabled(s, step) && WinnerOnItsWay(s, caller)
    requires step.Swap? || step.Notify? || step.SendTerminate?
    ensures WinnerOnItsWay(Apply(s, step), caller)
  {
    var t := Apply(s, step);
    assert t.terminatesSent == s.terminatesSent + if step.SendTerminate? then 1 else 0;
    assert step.caller != caller && caller in s.callers ==> caller in t.callers && t.callers[caller] == s.callers[caller];
  }

  // From any state: whoever wins through a handle sends Terminate, or still has to.
  lemma {:induction false} WinnerSendsTerminate(s: System, run: seq<Step>, caller: nat)
    requires Inv(s) && Legal(s, run) && WinnerOnItsWay(s, caller)
    ensures WinnerOnItsWay(Exec(s, run), caller)
    decreases |run|
  {
    if run != [] {
      StepKeeps(s, run[0]);
      WinnerStaysOnItsWay(s, run[0], caller);
      WinnerSendsTerminate(Apply(s, run[0]), run[1..], caller);
    }
  }

  // Every caller between its swap and the end of its request can take its next step, and a
  // request that won through a handle ends with Terminate in an open channel.
  lemma CallersGoOn(s: System, caller: nat)
    requires caller in s.callers
    ensures match s.callers[caller]
      case Swapped(first, viaHandle) =>
        Enabled(s, Notify(caller)) && var t := Apply(s, Notify(caller));
        t.permit && (first && viaHandle ==> caller in t.callers && t.callers[caller] == MustSend)
      case MustSend =>
        Enabled(s, SendTerminate(caller)) && var t := Apply(s, SendTerminate(caller));
        t.terminatesSent == s.terminatesSent + 1 && (s.open ==> t.queue == s.queue + [TerminateCommand])
  {
  }

  // A swap that finds the runtime running wins.
  lemma SwapWins(s: System, caller: nat, viaHandle: bool)
    requires caller !in s.callers && s.core.status == Running
    ensures var t := Apply(s, Swap(caller, viaHandle));
      t.core.status == Requested && t.requestsWon == s.requestsWon + 1 && (viaHandle ==> WinnerOnItsWay(t, caller))
  {
  }

  // ---- submissions ----

  // In this state this step submits job `id`, as the command says.
  predicate Submits(s: System, step: Step, id: nat) {
    step.SubmitHeld? && s.pc.Submitting? && s.pc.cmd.StartJob? && s.core.work.submitted == id
  }

  // The deadline a job gets from its command: its timeout counted from the submission, or the
  // deadline of the call it goes on with.
  predicate Clocked(cmd: Command, now: nat, deadline: Option<nat>) {
    cmd.StartJob? &&
    match cmd.clock
    case Fresh(None) => deadline == None
    case Fresh(Some(timeout)) => deadline == Some(now + timeout)
    case Inherited(inherited) => deadline == inherited
  }

  // Step n submitted the job with this number, kind, watchdog and deadline.
  ghost predicate SubmittedAs(run: seq<Step>, n: nat, j: Job)
    requires Legal(FRESH, run)
  {
    n < |run| && Submits(At(run, n), run[n], j.id) &&
    var cmd := At(run, n).pc.cmd;
    cmd.kind == j.kind && cmd.watchdog == j.watchdog && Clocked(cmd, At(run, n).now, j.deadline)
  }

  ghost predicate ClockedAt(run: seq<Step>, n: nat, id: nat, deadline: Option<nat>)
    requires Legal(FRESH, run)
  {
    n < |run| && Submits(At(run, n), run[n], id) && Clocked(At(run, n).pc.cmd, At(run, n).now, deadline)
  }

  ghost predicate HasOrigin(run: seq<Step>, j: Job)
    requires Legal(FRESH, run)
  {
    exists n :: SubmittedAs(run, n, j)
  }

  ghost predicate HasClock(run: seq<Step>, id: nat, deadline: Option<nat>)
    requires Legal(FRESH, run)
  {
    exists n :: ClockedAt(run, n, id, deadline)
  }

  ghost predicate Traced(run: seq<Step>, w: Work)
    requires Legal(FRESH, run)
  {
    && (forall j :: j in Held(w) ==> HasOrigin(run, j))
    && (forall a :: a in w.answers ==> HasClock(run, a.id, a.deadline))
    && (forall t :: t in w.starts ==> HasClock(run, t.id, t.deadline))
  }

  // The same job, further on.
  predicate SameJob(a: Job, b: Job) {
    a.id == b.id && a.kind == b.kind && a.watchdog == b.watchdog && a.deadline == b.deadline
  }

  // No step changes what a job was submitted with.
  ghost predicate JobsStay(w: Work, after: Work) {
    && (forall j :: j in Held(after) ==> exists i :: i in Held(w) && SameJob(i, j))
    && (forall a :: a in after.answers ==> a in w.answers || exists i :: i in Held(w) && i.id == a.id && i.deadline == a.deadline)
    && (forall t :: t in after.starts ==> t in w.starts || exists i :: i in Held(w) && i.id == t.id && i.deadline == t.deadline)
  }

  lemma Unchanged(w: Work, after: Work)
    requires Held(after) == Held(w) && after.answers == w.answers && after.starts == w.starts
    ensures JobsStay(w, after)
  {
    forall j | j in Held(after) ensures exists i :: i in Held(w) && SameJob(i, j) {
      assert SameJob(j, j);
    }
  }

  lemma PromotedStay(w: Work, after: Work)
    requires w.active.Some? && (exists told, now :: A.Answers(w, after, told, now))
    ensures forall j :: j in Held(after) ==> exists i :: i in Held(w) && SameJob(i, j)
  {
    forall j | j in Held(after) ensures exists i :: i in Held(w) && SameJob(i, j) {
      assert Held(w)[1..] == w.pending;
      if after.active.Some? && j == after.active.value {
        assert w.pending[0] in Held(w) && SameJob(w.pending[0], j);
      } else {
        assert j in w.pending && SameJob(j, j);
      }
    }
  }

  lemma SettledStays(w: Work, after: Work, told: JobResult, now: nat)
    requires w.active.Some? && A.Answers(w, after, told, now)
    requires after.starts == w.starts || A.StartRan(w, after, now)
    ensures JobsStay(w, after)
  {
    assert Held(w)[0] == w.active.value;
    PromotedStay(w, after);
  }

  // ---- what each step keeps of the jobs ----

  lemma PolledStays(c: Core, ev: JobEvent, fired: bool, now: nat)
    requires CoreInv(c)
    ensures JobsStay(c.work, JobPolled(c, ev, fired, now).work)
  {
    var w, after := c.work, JobPolled(c, ev, fired, now).work;
    if w.active.None? {
      Unchanged(w, after);
    } else {
      var p := PollJob(w.active.value, now, ev, Rejecting(c), c.reason);
      assert Held(w)[0] == w.active.value;
      if p.ready.Some? {
        A.PollSettles(c, ev, fired, now, p);
        var told :| A.Answers(w, after, told, now);
        SettledStays(w, after, told, now);
      } else {
        PollFollows(w.active.value, now, ev, Rejecting(c), c.reason);
        PollKeepsJob(w.active.value, now, ev, Rejecting(c), c.reason);
        assert p.started ==> A.StartRan(w, after, now);
        ReplacedStays(w, after, p.job);
      }
    }
  }

  lemma PollKeepsJob(j: Job, now: nat, ev: JobEvent, asked: bool, reason: Option<string>)
    ensures SameJob(j, PollJob(j, now, ev, asked, reason).job)
  {
  }

  lemma ReplacedStays(w: Work, after: Work, j: Job)
    requires w.active.Some? && SameJob(w.active.value, j) && after.active == Some(j)
    requires after.pending == w.pending && after.answers == w.answers
    requires after.starts == w.starts || exists now :: A.StartRan(w, after, now)
    ensures JobsStay(w, after)
  {
    assert Held(w)[0] == w.active.value && Held(w)[1..] == w.pending;
    forall i | i in Held(after) ensures exists k :: k in Held(w) && SameJob(k, i) {
      if i != j {
        assert i in w.pending && SameJob(i, i);
      }
    }
  }

  lemma LoopStays(c: Core, outcome: LoopOutcome, fired: bool, now: nat)
    requires CoreInv(c)
    ensures JobsStay(c.work, LoopPolled(c, outcome, fired, now).0.work)
  {
    var w, after := c.work, LoopPolled(c, outcome, fired, now).0.work;
    if outcome.Failed? && !outcome.fault.saysTerminated && w.active.Some? {
      A.LoopFailureIsAnswered(c, outcome.fault, fired, now);
      SettledStays(w, after, Err(A.ErrorOf(outcome.fault)), now);
    } else {
      assert after == w;
      Unchanged(w, after);
    }
  }

  lemma AbandonedStay(c: Core, fired: set<nat>, now: nat)
    requires CoreInv(c)
    ensures JobsStay(c.work, Aborted(c, fired, now).work)
  {
    var w, after, held := c.work, Aborted(c, fired, now).work, Held(c.work);
    A.AbandonedAreAnswered(c, fired, now);
    assert Held(after) == [];
    forall a | a in after.answers ensures a in w.answers || exists i :: i in Held(w) && i.id == a.id && i.deadline == a.deadline {
      var n :| 0 <= n < |after.answers| && after.answers[n] == a;
      if n < |w.answers| {
        assert w.answers[n] == a;
      } else {
        var k := n - |w.answers|;
        assert a == A.Abandoned(held[k], c.reason, held[k].id in fired, now) && held[k] in held;
      }
    }
  }

  lemma TurnStays(s: System, step: Step)
    requires CoreInv(s.core) && Enabled(s, step) && InTurn(step)
    ensures JobsStay(s.core.work, Apply(s, step).core.work)
  {
    var w, after := s.core.work, Apply(s, step).core.work;
    match step
    case PollEventLoop(outcome, fired) => LoopStays(s.core, outcome, fired, s.now);
    case PollActiveJob(ev, fired) => PolledStays(s.core, ev, fired, s.now);
    case AbortWork(fired) => AbandonedStay(s.core, fired, s.now);
    case ReadStatus => Unchanged(w, after);
    case Finalize => Unchanged(w, after);
    case PassGate => Unchanged(w, after);
  }

  lemma StepStays(s: System, step: Step)
    requires CoreInv(s.core) && Enabled(s, step) && !step.SubmitHeld?
    ensures JobsStay(s.core.work, Apply(s, step).core.work)
  {
    if InTurn(step) {
      TurnStays(s, step);
    } else {
      if !ByRuntimeThread(step) {
        OthersLeaveWork(s, step);
      }
      assert Apply(s, step).core.work == s.core.work;
      Unchanged(s.core.work, Apply(s, step).core.work);
    }
  }

  // A submission adds one job, with what its command says, and leaves the others.
  lemma SubmittedOnItsClock(c: Core, cmd: Command, now: nat)
    requires CoreInv(c) && cmd.StartJob?
    ensures var w, after := c.work, Submitted(c, cmd, now).work;
      && after.answers == w.answers && after.starts == w.starts && after.submitted == w.submitted + 1
      && exists j :: Held(after) == Held(w) + [j] && j.id == w.submitted && Unstarted(j)
           && j.kind == cmd.kind && j.watchdog == cmd.watchdog && Clocked(cmd, now, j.deadline)
  {
    var job := Job(c.work.submitted, cmd.kind, DeadlineOf(cmd.clock, now), cmd.watchdog, now, Init, false);
    SubmitKeeps(c.work, cmd.kind, DeadlineOf(cmd.clock, now), cmd.watchdog, now);
    assert Held(Submitted(c, cmd, now).work) == Held(c.work) + [job] && Clocked(cmd, now, job.deadline);
  }

  // ---- over a run ----

  lemma OriginStays(run: seq<Step>, n: nat)
    requires Legal(FRESH, run) && n <= |run|
    ensures Legal(FRESH, run[..n])
    ensures forall j :: HasOrigin(run[..n], j) ==> HasOrigin(run, j)
    ensures forall id, d :: HasClock(run[..n], id, d) ==> HasClock(run, id, d)
  {
    LegalPrefix(FRESH, run, n);
    forall j | HasOrigin(run[..n], j) ensures HasOrigin(run, j) {
      var k :| SubmittedAs(run[..n], k, j);
      AtPrefix(run, n, k);
      assert SubmittedAs(run, k, j);
    }
    forall id, d | HasClock(run[..n], id, d) ensures HasClock(run, id, d) {
      var k :| ClockedAt(run[..n], k, id, d);
      AtPrefix(run, n, k);
      assert ClockedAt(run, k, id, d);
    }
  }

  lemma OriginSame(run: seq<Step>, a: Job, b: Job)
    requires Legal(FRESH, run) && HasOrigin(run, a) && SameJob(a, b)
    ensures HasOrigin(run, b) && HasClock(run, b.id, b.deadline)
  {
    var n :| SubmittedAs(run, n, a);
    assert SubmittedAs(run, n, b) && ClockedAt(run, n, b.id, b.deadline);
  }

  lemma TracedStays(run: seq<Step>, w: Work, after: Work)
    requires Legal(FRESH, run) && Traced(run, w) && JobsStay(w, after)
    ensures Traced(run, after)
  {
    forall j | j in Held(after) ensures HasOrigin(run, j) {
      var i :| i in Held(w) && SameJob(i, j);
      OriginSame(run, i, j);
    }
    forall a | a in after.answers ensures HasClock(run, a.id, a.deadline) {
      if a !in w.answers {
        var i :| i in Held(w) && i.id == a.id && i.deadline == a.deadline;
        OriginSame(run, i, i);
      }
    }
    forall t | t in after.starts ensures HasClock(run, t.id, t.deadline) {
      if t !in w.starts {
        var i :| i in Held(w) && i.id == t.id && i.deadline == t.deadline;
        OriginSame(run, i, i);
      }
    }
  }

  lemma TracedSubmitted(run: seq<Step>, n: nat)
    requires Legal(FRESH, run) && n + 1 == |run| && run[n].SubmitHeld? && Traced(run, At(run, n).core.work)
    ensures Traced(run, Exec(FRESH, run).core.work)
  {
    StepAt(run, n);
    AtEnd(run);
    AtKeeps(run, n);
    var s := At(run, n);
    SubmittedOnItsClock(s.core, s.pc.cmd, s.now);
    var w, after := s.core.work, Exec(FRESH, run).core.work;
    var j :| Held(after) == Held(w) + [j] && j.id == w.submitted && Unstarted(j)
           && j.kind == s.pc.cmd.kind && j.watchdog == s.pc.cmd.watchdog && Clocked(s.pc.cmd, s.now, j.deadline);
    assert SubmittedAs(run, n, j);
  }

  // Over every run each job held, started or answered has the deadline that its own command set
  // when it was submitted, and the kind and watchdog that command names.
  lemma {:induction false} JobsAreTraced(run: seq<Step>)
    requires Legal(FRESH, run)
    ensures Traced(run, Exec(FRESH, run).core.work)
    decreases |run|
  {
    if run != [] {
      var n := |run| - 1;
      OriginStays(run, n);
      JobsAreTraced(run[..n]);
      AtKeeps(run, n);
      StepAt(run, n);
      AtEnd(run);
      assert Traced(run, At(run, n).core.work);
      if run[n].SubmitHeld? {
        TracedSubmitted(run, n);
      } else {
        StepStays(At(run, n), run[n]);
        TracedStays(run, At(run, n).core.work, Exec(FRESH, run).core.work);
      }
    }
  }

  // ---- numbers are given out once ----

  lemma SubmittedGrows(s: System, step: Step)
    requires CoreInv(s.core) && Enabled(s, step)
    ensures Apply(s, step).core.work.submitted == s.core.work.submitted + if step.SubmitHeld? then 1 else 0
  {
    if step.SubmitHeld? {
      SubmittedOnItsClock(s.core, s.pc.cmd, s.now);
    } else if !ByRuntimeThread(step) {
      OthersLeaveWork(s, step);
    } else if step.PollEventLoop? {
      A.QuietLoop(s.core, step.fired, s.now);
    }
  }

  lemma {:induction false} SubmittedRises(run: seq<Step>, m: nat, n: nat)
    requires Legal(FRESH, run) && m <= n <= |run|
    ensures At(run, m).core.work.submitted <= At(run, n).core.work.submitted
    decreases n
  {
    if m < n {
      SubmittedRises(run, m, n - 1);
      AtKeeps(run, n - 1);
      StepAt(run, n - 1);
      SubmittedGrows(At(run, n - 1), run[n - 1]);
    }
  }

  // No two steps submit the same job.
  lemma SubmittedOnce(run: seq<Step>, m: nat, n: nat, id: nat)
    requires Legal(FRESH, run) && m <= n < |run|
    requires Submits(At(run, m), run[m], id) && Submits(At(run, n), run[n], id)
    ensures m == n
  {
    if m < n {
      AtKeeps(run, m);
      StepAt(run, m);
      SubmittedGrows(At(run, m), run[m]);
      SubmittedRises(run, m + 1, n);
    }
  }

  // ---- deadlines are the callers' timeouts ----

  lemma AnswerIds(run: seq<Step>, i: nat)
    requires Legal(FRESH, run) && i < |Exec(FRESH, run).core.work.answers|
    ensures Exec(FRESH, run).core.work.answers[i].id == i
  {
    FreshRuns(run);
  }

  // An answered job has the deadline that the step which submitted it set.
  lemma AnswersClock(run: seq<Step>, i: nat, n: nat)
    requires Legal(FRESH, run) && i < |Exec(FRESH, run).core.work.answers|
    requires n < |run| && Submits(At(run, n), run[n], i)
    ensures Clocked(At(run, n).pc.cmd, At(run, n).now, Exec(FRESH, run).core.work.answers[i].deadline)
  {
    var a := Exec(FRESH, run).core.work.answers[i];
    JobsAreTraced(run);
    AnswerIds(run, i);
    assert a in Exec(FRESH, run).core.work.answers;
    var m: nat :| ClockedAt(run, m, i, a.deadline);
    if m <= n {
      SubmittedOnce(run, m, n, i);
    } else {
      SubmittedOnce(run, n, m, i);
    }
  }

  // What a deadline timeout given at this time says about the command behind it.
  predicate TookItsTime(cmd: Command, submitted: nat, at: nat) {
    cmd.StartJob? &&
    match cmd.clock
    case Fresh(None) => false
    case Fresh(Some(timeout)) => submitted + timeout <= at
    case Inherited(deadline) => deadline.Some? && deadline.value <= at
  }

  // Over every run a job is timed out by its own deadline only after the timeout its command
  // gave it, counted from the step that submitted it, and never if it gave none.
  lemma TimeoutsTakeTheirTime(run: seq<Step>, i: nat, n: nat)
    requires Legal(FRESH, run) && n < |run|
    requires var w := Exec(FRESH, run).core.work; i < |w.answers| && w.answers[i].result == Err(Timeout(OwnDeadline))
    requires Submits(At(run, n), run[n], i)
    ensures TookItsTime(At(run, n).pc.cmd, At(run, n).now, Exec(FRESH, run).core.work.answers[i].at)
  {
    FreshRuns(run);
    AnswersClock(run, i, n);
  }

  // Every answered job was submitted by some step, and every start came before the timeout.
  lemma StartsAreInTime(run: seq<Step>, k: nat) returns (n: nat)
    requires Legal(FRESH, run) && k < |Exec(FRESH, run).core.work.starts|
    ensures n < |run| && Submits(At(run, n), run[n], Exec(FRESH, run).core.work.starts[k].id)
    ensures var clock := At(run, n).pc.cmd.clock;
      clock.Fresh? && clock.timeout.Some? ==>
        Exec(FRESH, run).core.work.starts[k].at < At(run, n).now + clock.timeout.value
  {
    var t := Exec(FRESH, run).core.work.starts[k];
    JobsAreTraced(run);
    FreshRuns(run);
    assert t in Exec(FRESH, run).core.work.starts;
    n :| ClockedAt(run, n, t.id, t.deadline);
  }

  lemma AnsweredWasSubmitted(run: seq<Step>, i: nat) returns (n: nat)
    requires Legal(FRESH, run) && i < |Exec(FRESH, run).core.work.answers|
    ensures n < |run| && Submits(At(run, n), run[n], i)
  {
    var a := Exec(FRESH, run).core.work.answers[i];
    JobsAreTraced(run);
    FreshRuns(run);
    assert a in Exec(FRESH, run).core.work.answers && a.id == i;
    n :| ClockedAt(run, n, i, a.deadline);
  }

  // When the runtime thread's steps take no time, such a timeout comes exactly when the time is
  // up, or when the job became active if that was later.
  lemma TimeoutsAreExact(run: seq<Step>, i: nat, n: nat)
    requires Legal(FRESH, run) && ZeroCostRun(FRESH, run) && n < |run|
    requires var w := Exec(FRESH, run).core.work; i < |w.answers| && w.answers[i].result == Err(Timeout(OwnDeadline))
    requires Submits(At(run, n), run[n], i) && At(run, n).pc.cmd.clock.Fresh?
    ensures At(run, n).pc.cmd.clock.timeout.Some?
    ensures var a := Exec(FRESH, run).core.work.answers[i]; var up := At(run, n).now + At(run, n).pc.cmd.clock.timeout.value;
      a.at == if up < a.since then a.since else up
  {
    FreshInv();
    DeadlinesAreHonest(FRESH, run);
    AnswersClock(run, i, n);
  }

  // ---- every answer has its cause ----

  // What the poll of this job owes its caller.
  ghost predicate Owed(c: Core, ev: JobEvent, now: nat, result: JobResult)
    requires c.work.active.Some?
  {
    var j, asked := c.work.active.value, c.terminated || c.status != Running;
    if !A.InTime(j, now) then result == Err(Timeout(OwnDeadline))
    else
      match j.state
      case Init => ev.start.Some? && result == Err(A.Arriving(A.ErrorOf(ev.start.value), asked && ev.start.value.Script?, c.reason))
      case Waiting =>
        || (j.kind == PromiseJob && ev.promise.Fulfilled? && result == A.ResultOf(ev.promise.result))
        || (ev.promise.Rejected? && result == Err(A.Arriving(A.ErrorOf(ev.promise.fault), asked, c.reason)))
      case Extracting => j.kind == ModuleJob && result == A.ResultOf(ev.namespace)
      case Done => false
  }

  ghost predicate OwedAs(c: Core, ev: JobEvent, fired: bool, now: nat, told: JobResult)
    requires c.work.active.Some?
  {
    exists result :: Owed(c, ev, now, result) && A.Told(result, c.work.active.value.watchdog && fired, told)
  }

  // The step that gave this answer, and why.
  ghost predicate Explains(s: System, step: Step, a: Answer) {
    var w := s.core.work;
    match step
    case PollActiveJob(ev, fired) =>
      w.active.Some? && a.id == w.active.value.id && a.at == s.now && OwedAs(s.core, ev, fired, s.now, a.result)
    case PollEventLoop(outcome, _) =>
      && outcome.Failed? && !outcome.fault.saysTerminated && w.active.Some?
      && a.id == w.active.value.id && a.at == s.now && a.result == Err(A.ErrorOf(outcome.fault))
    case AbortWork(fired) =>
      exists j :: j in Held(w) && a == A.Abandoned(j, s.core.reason, j.id in fired, s.now)
    case _ => false
  }

  ghost predicate ExplainedAt(run: seq<Step>, n: nat, a: Answer)
    requires Legal(FRESH, run)
  {
    n < |run| && Explains(At(run, n), run[n], a)
  }

  // The active job is never one that has already been answered, and only modules are asked for
  // a namespace.
  predicate LiveState(w: Work) {
    w.active.Some? ==> w.active.value.state != Done && (w.active.value.state == Extracting ==> w.active.value.kind == ModuleJob)
  }

  ghost predicate NewAnswersExplained(s: System, step: Step)
    requires Enabled(s, step)
  {
    var before, after := s.core.work, Apply(s, step).core.work;
    LiveState(after) && forall a :: a in after.answers ==> a in before.answers || Explains(s, step, a)
  }

  lemma PollLives(w: Work, p: Polled, fired: bool, now: nat)
    requires w.active.Some? && (forall k :: 0 <= k < |w.pending| ==> Unstarted(w.pending[k]))
    requires p.ready.None? ==> p.job.state == Waiting || (p.job.state == Extracting && p.job.kind == ModuleJob)
    ensures LiveState(PollActive(w, p, fired, now))
  {
  }

  lemma PollsOn(j: Job, now: nat, ev: JobEvent, asked: bool, reason: Option<string>)
    requires j.state == Extracting ==> j.kind == ModuleJob
    ensures var p := PollJob(j, now, ev, asked, reason);
      p.ready.None? ==> p.job.state == Waiting || (p.job.state == Extracting && p.job.kind == ModuleJob)
  {
  }

  lemma SettledExplained(s: System, ev: JobEvent, fired: bool, after: Work, result: JobResult)
    requires s.core.work.active.Some? && Owed(s.core, ev, s.now, result)
    requires exists told :: A.Told(result, s.core.work.active.value.watchdog && fired, told) && A.Answers(s.core.work, after, told, s.now)
    ensures forall a :: a in after.answers ==> a in s.core.work.answers || Explains(s, PollActiveJob(ev, fired), a)
  {
    var told :| A.Told(result, s.core.work.active.value.watchdog && fired, told) && A.Answers(s.core.work, after, told, s.now);
    assert OwedAs(s.core, ev, fired, s.now, told);
  }

  lemma PollExplains(s: System, ev: JobEvent, fired: bool)
    requires CoreInv(s.core) && LiveState(s.core.work) && s.pc.AtJob?
    ensures NewAnswersExplained(s, PollActiveJob(ev, fired))
  {
    var c, after := s.core, JobPolled(s.core, ev, fired, s.now).work;
    assert Apply(s, PollActiveJob(ev, fired)).core.work == after;
    if c.work.active.Some? {
      var p := PollJob(c.work.active.value, s.now, ev, Rejecting(c), c.reason);
      PollsOn(c.work.active.value, s.now, ev, Rejecting(c), c.reason);
      PollLives(c.work, p, fired, s.now);
      assert after == PollActive(c.work, p, fired, s.now);
      if p.ready.Some? {
        PollOwes(c, ev, s.now);
        A.PollSettles(c, ev, fired, s.now, p);
        SettledExplained(s, ev, fired, after, p.ready.value);
      }
    }
  }

  lemma PollOwes(c: Core, ev: JobEvent, now: nat)
    requires CoreInv(c) && LiveState(c.work) && c.work.active.Some?
    ensures var p := PollJob(c.work.active.value, now, ev, Rejecting(c), c.reason);
      p.ready.Some? ==> Owed(c, ev, now, p.ready.value)
  {
    if ev.start.Some? {
      A.InterruptedIndicates(A.ErrorOf(ev.start.value));
    }
    if ev.promise.Rejected? {
      A.InterruptedIndicates(A.ErrorOf(ev.promise.fault));
    }
  }

  lemma LoopExplains(s: System, outcome: LoopOutcome, fired: bool)
    requires CoreInv(s.core) && LiveState(s.core.work) && s.pc.LoopHead?
    ensures NewAnswersExplained(s, PollEventLoop(outcome, fired))
  {
    if outcome.Failed? {
      A.LoopFailureIsAnswered(s.core, outcome.fault, fired, s.now);
    }
  }

  lemma AbortExplains(s: System, fired: set<nat>)
    requires CoreInv(s.core) && s.pc.Aborting?
    ensures NewAnswersExplained(s, AbortWork(fired))
  {
    var w, after, held := s.core.work, Aborted(s.core, fired, s.now).work, Held(s.core.work);
    A.AbandonedAreAnswered(s.core, fired, s.now);
    forall a | a in after.answers ensures a in w.answers || Explains(s, AbortWork(fired), a) {
      var n :| 0 <= n < |after.answers| && after.answers[n] == a;
      if n < |w.answers| {
        assert w.answers[n] == a;
      } else {
        var k := n - |w.answers|;
        assert a == A.Abandoned(held[k], s.core.reason, held[k].id in fired, s.now) && held[k] in held;
      }
    }
  }

  lemma StepExplains(s: System, step: Step)
    requires CoreInv(s.core) && LiveState(s.core.work) && Enabled(s, step)
    ensures NewAnswersExplained(s, step)
  {
    if step.PollActiveJob? {
      PollExplains(s, step.ev, step.fired);
    } else if step.PollEventLoop? {
      LoopExplains(s, step.outcome, step.fired);
    } else if step.AbortWork? {
      AbortExplains(s, step.firedJobs);
    } else if step.SubmitHeld? {
      SubmittedOnItsClock(s.core, s.pc.cmd, s.now);
      assert LiveState(Submitted(s.core, s.pc.cmd, s.now).work);
    } else {
      if !ByRuntimeThread(step) {
        OthersLeaveWork(s, step);
      }
      var w, after := s.core.work, Apply(s, step).core.work;
      assert after.answers == w.answers && after.active == w.active;
    }
  }

  ghost predicate AllExplained(run: seq<Step>, w: Work)
    requires Legal(FRESH, run)
  {
    LiveState(w) && forall a :: a in w.answers ==> exists n :: ExplainedAt(run, n, a)
  }

  // Over every run each answer was given by a step that settled that job, with what the step
  // knew of it: its own deadline, its own promise, module or start closure, the loop's failure
  // while it was active, or the abandoning of all work.
  lemma {:induction false} AnswersAreExplained(run: seq<Step>)
    requires Legal(FRESH, run)
    ensures AllExplained(run, Exec(FRESH, run).core.work)
    decreases |run|
  {
    if run != [] {
      var n := |run| - 1;
      LegalPrefix(FRESH, run, n);
      AnswersAreExplained(run[..n]);
      AtKeeps(run, n);
      StepAt(run, n);
      AtEnd(run);
      var s, after := At(run, n), Exec(FRESH, run).core.work;
      StepExplains(s, run[n]);
      forall a | a in after.answers ensures exists k :: ExplainedAt(run, k, a) {
        if a in s.core.work.answers {
          var k :| ExplainedAt(run[..n], k, a);
          AtPrefix(run, n, k);
          assert ExplainedAt(run, k, a);
        } else {
          assert ExplainedAt(run, n, a);
        }
      }
    }
  }

  // This step read this value off the job's own promise, or off its module's namespace.
  ghost predicate Delivers(s: System, step: Step, id: nat, v: nat) {
    step.PollActiveJob? && s.core.work.active.Some? &&
    var j := s.core.work.active.value;
    && j.id == id && j.startTaken && !(j.watchdog && step.fired)
    && match j.kind
       case PromiseJob => step.ev.promise == Fulfilled(Ok(v))
       case ModuleJob => step.ev.namespace == Ok(v)
  }

  // A value that a caller is given is the one its own promise or namespace delivered.
  lemma ValuesWereDelivered(run: seq<Step>, i: nat) returns (n: nat)
    requires Legal(FRESH, run)
    requires var w := Exec(FRESH, run).core.work; i < |w.answers| && w.answers[i].result.Ok?
    ensures n < |run| && Delivers(At(run, n), run[n], i, Exec(FRESH, run).core.work.answers[i].result.value)
  {
    var a := Exec(FRESH, run).core.work.answers[i];
    AnswersAreExplained(run);
    FreshRuns(run);
    assert a in Exec(FRESH, run).core.work.answers && a.id == i;
    n :| ExplainedAt(run, n, a);
    AtKeeps(run, n);
  }

  // ---- the park without a timer ----

  // Whether the event loop had nothing left when it was polled last.
  function LeftNothing(run: seq<Step>): Option<bool> {
    if run == [] then None
    else if run[|run| - 1].PollEventLoop? then Some(!run[|run| - 1].outcome.Outstanding?)
    else LeftNothing(run[..|run| - 1])
  }

  predicate Remembers(s: System, left: Option<bool>) {
    && (s.pc.AtJob? ==> left == Some(s.pc.drained))
    && (s.pc.AtCheck? ==> left == Some(s.pc.drained))
    && (s.pc.AtGate? ==> left == Some(s.pc.drained))
    && (s.pc.Parked? ==> left.Some? && (s.pc.idle <==> left.value && !HasWork(s.core.work)))
  }

  lemma StepRemembers(s: System, step: Step, left: Option<bool>)
    requires Enabled(s, step) && Remembers(s, left)
    ensures Remembers(Apply(s, step), if step.PollEventLoop? then Some(!step.outcome.Outstanding?) else left)
  {
    if !ByRuntimeThread(step) {
      OthersLeaveWork(s, step);
    }
  }

  // The runtime thread parks without a timer exactly when it holds no work and the event loop
  // had nothing left.
  lemma {:induction false} ParksIdleIffNothingIsLeft(run: seq<Step>)
    requires Legal(FRESH, run)
    ensures Remembers(Exec(FRESH, run), LeftNothing(run))
    decreases |run|
  {
    if run != [] {
      StepAtEnd(FRESH, run);
      var front := run[..|run| - 1];
      ParksIdleIffNothingIsLeft(front);
      StepRemembers(Exec(FRESH, front), run[|run| - 1], LeftNothing(front));
    }
  }
}
