// Every turn of the dispatcher object is a run of the protocol's atomic steps.
module TurnSimulation {
  import opened Wrappers
  import opened Jobs
  import opened WorkQueue
  import opened DispatcherCore
  import opened Dispatcher
  import T = TerminationProtocol

  // The steps lead from one state of the system to the other.
  ghost predicate Runs(s: T.System, steps: seq<T.Step>, t: T.System) {
    T.Legal(s, steps) && T.Exec(s, steps) == t
  }

  lemma Once(s: T.System, step: T.Step)
    requires T.Enabled(s, step)
    ensures Runs(s, [step], T.Apply(s, step))
  {
    assert T.Legal(T.Apply(s, step), []);
  }

  lemma Join(s: T.System, a: seq<T.Step>, t: T.System, b: seq<T.Step>, u: T.System)
    requires Runs(s, a, t) && Runs(t, b, u)
    ensures Runs(s, a + b, u)
  {
    T.ExecAppend(s, a, b);
  }

  // Nothing around the runtime thread has changed, but for a wake.
  ghost predicate Around(s: T.System, t: T.System) {
    t.queue == s.queue && t.open == s.open && t.callers == s.callers == map[] && t.now == s.now
  }

  // ---- other threads ----

  lemma Request(s: T.System) returns (steps: seq<T.Step>, t: T.System)
    requires s.callers == map[]
    ensures Runs(s, steps, t) && Around(s, t) && t.pc == s.pc && t.core == Requesting(s.core)
  {
    var swap, notify := T.Swap(0, false), T.Notify(0);
    var s1 := T.Apply(s, swap);
    t := T.Apply(s1, notify);
    steps := [swap] + [notify];
    Once(s, swap);
    Once(s1, notify);
    Join(s, [swap], s1, [notify], t);
    assert t.callers == map[];
  }

  lemma Nothing(s: T.System)
    ensures Runs(s, [], s)
  {
  }

  lemma Disturb(s: T.System, o: Outside) returns (steps: seq<T.Step>, t: T.System)
    requires s.callers == map[]
    ensures Runs(s, steps, t) && Around(s, t) && t.pc == s.pc && t.core == Disturbed(s.core, o)
  {
    steps, t := [], s;
    Nothing(s);
    if o.reason.Some? {
      var step := T.NameReason(o.reason.value);
      Once(s, step);
      steps, t := [step], T.Apply(s, step);
    }
    if o.requests {
      var more, u := Request(t);
      Join(s, steps, t, more, u);
      steps, t := steps + more, u;
    }
    if o.forces && t.core.status != Running {
      Once(t, T.ForceMark);
      Join(s, steps, t, [T.ForceMark], T.Apply(t, T.ForceMark));
      steps, t := steps + [T.ForceMark], T.Apply(t, T.ForceMark);
    }
  }

  // u is s after whatever the others do at this point of the turn.
  ghost predicate Disturbing(s: T.System, m: Moment, p: Point, u: T.System) {
    Around(s, u) && u.pc == s.pc && u.core == Interfered(s.core, m, p)
  }

  lemma Interfere(s: T.System, m: Moment, p: Point) returns (steps: seq<T.Step>, t: T.System)
    requires s.callers == map[]
    ensures Runs(s, steps, t) && Disturbing(s, m, p, t)
  {
    if p in m.others {
      steps, t := Disturb(s, m.others[p]);
    } else {
      steps, t := [], s;
      Nothing(s);
    }
  }

  // Other threads interfere, then the runtime thread takes one step.
  lemma ThenStep(s: T.System, m: Moment, p: Point, step: T.Step) returns (steps: seq<T.Step>, t: T.System)
    requires s.callers == map[] && forall u :: Disturbing(s, m, p, u) ==> T.Enabled(u, step)
    ensures Runs(s, steps, t)
    ensures exists u :: Disturbing(s, m, p, u) && T.Enabled(u, step) && t == T.Apply(u, step)
  {
    var first, u := Interfere(s, m, p);
    Once(u, step);
    t := T.Apply(u, step);
    Join(s, first, u, [step], t);
    steps := first + [step];
  }

  // ---- the parts of a turn ----

  lemma Abandon(s: T.System, m: Moment) returns (steps: seq<T.Step>, t: T.System)
    requires s.pc.Aborting? && s.now == m.now
    ensures Runs(s, steps, t) && t.pc == T.Exited(s.pc.why) && t.core == Finalised(Aborted(s.core, m.firedJobs, m.now))
  {
    var abort := T.AbortWork(m.firedJobs);
    var s1 := T.Apply(s, abort);
    t := T.Apply(s1, T.Finalize);
    Once(s, abort);
    Once(s1, T.Finalize);
    Join(s, [abort], s1, [T.Finalize], t);
    steps := [abort] + [T.Finalize];
  }

  // Where the runtime thread is after a turn.
  function PcAfter(turn: Turn): T.Pc {
    match turn
    case Stay => T.LoopHead
    case Leave(why) => T.Exited(why)
  }

  ghost predicate Ends(t: T.System, result: (Core, Turn)) {
    t.core == result.0 && t.pc == PcAfter(result.1)
  }

  // A command that was let through: its step, after whatever other threads do meanwhile.
  lemma Serve(s: T.System, cmd: Command, m: Moment) returns (steps: seq<T.Step>, t: T.System)
    requires s.now == m.now && s.callers == map[]
    requires (s.pc == T.Submitting(cmd) && cmd.StartJob?) || (s.pc == T.Executing && cmd.Immediate?)
    ensures Runs(s, steps, t) && t.pc == T.LoopHead
    ensures var during := Interfered(s.core, m, DuringCommand);
      t.core == if cmd.StartJob? then Submitted(during, cmd, m.now)
                else if m.syncSaysTerminated && Rejecting(during) then Finalised(during) else during
  {
    if s.pc.Submitting? {
      steps, t := ThenStep(s, m, DuringCommand, T.SubmitHeld);
    } else {
      steps, t := ThenStep(s, m, DuringCommand, T.FinishImmediate(m.syncSaysTerminated));
    }
  }

  // Where a command leads the runtime thread.
  lemma Begun(s: T.System, cmd: Command, m: Moment)
    requires s.pc == T.Handling(cmd)
    ensures var t := T.Apply(s, T.BeginCommand);
      && Runs(s, [T.BeginCommand], t) && t == s.(pc := t.pc)
      && match t.pc
         case Aborting(why) => cmd.TerminateCommand? && why == ByCommand
         case Submitting(held) => held == cmd && cmd.StartJob? && !Rejecting(s.core) && !cmd.refused
         case Executing => cmd.Immediate? && !(cmd.checksStatus && Rejecting(s.core))
         case _ => Ends(t, CommandHandled(s.core, cmd, m))
  {
    Once(s, T.BeginCommand);
  }

  lemma Handle(s: T.System, cmd: Command, m: Moment) returns (steps: seq<T.Step>, t: T.System)
    requires s.pc == T.Handling(cmd) && s.now == m.now && s.callers == map[]
    ensures Runs(s, steps, t) && Ends(t, CommandHandled(s.core, cmd, m))
  {
    var begun := T.Apply(s, T.BeginCommand);
    Begun(s, cmd, m);
    steps, t := [T.BeginCommand], begun;
    if begun.pc.Aborting? {
      var more, u := Abandon(begun, m);
      Join(s, steps, begun, more, u);
      steps, t := steps + more, u;
    } else if begun.pc.Submitting? || begun.pc.Executing? {
      var more, u := Serve(begun, cmd, m);
      Join(s, steps, begun, more, u);
      steps, t := steps + more, u;
    }
  }

  // Parked, the runtime thread leaves by the arm of the select the moment says; the timer's arm
  // only when no wake is stored and there is something to wait for.
  lemma Wakes(s: T.System, m: Moment) returns (steps: seq<T.Step>, t: T.System)
    requires s.pc.Parked? && s.queue == [] && s.open
    ensures Runs(s, steps, t) && t.pc == T.LoopHead && t.core == s.core
  {
    if m.selected.TickElapsed? && !s.permit && !s.pc.idle {
      var wait := T.Advance(s.pc.wakeAt);
      var s1 := T.Apply(s, wait);
      t := T.Apply(s1, T.TickElapsed);
      Once(s, wait);
      Once(s1, T.TickElapsed);
      Join(s, [wait], s1, [T.TickElapsed], t);
      steps := [wait] + [T.TickElapsed];
    } else {
      var s1 := T.Apply(s, T.Wake);
      t := T.Apply(s1, T.TakePermit);
      Once(s, T.Wake);
      Once(s1, T.TakePermit);
      Join(s, [T.Wake], s1, [T.TakePermit], t);
      steps := [T.Wake] + [T.TakePermit];
    }
  }

  // What the channel holds agrees with what the select will see.
  ghost predicate Offers(s: T.System, m: Moment) {
    && s.callers == map[] && s.now == m.now
    && match m.selected
       case Arrived(cmd) => s.queue == [cmd]
       case Closed => s.queue == [] && !s.open
       case _ => s.queue == [] && s.open
  }

  lemma Select(s: T.System, m: Moment) returns (steps: seq<T.Step>, t: T.System)
    requires s.pc.Parked? && Offers(s, m)
    ensures Runs(s, steps, t) && Ends(t, SelectionHandled(s.core, m))
  {
    match m.selected
    case Arrived(cmd) =>
      var first, u := ThenStep(s, m, BeforeCommand, T.TakeCommand);
      var more, v := Handle(u, cmd, m);
      Join(s, first, u, more, v);
      steps, t := first + more, v;
    case Closed =>
      var u := T.Apply(s, T.SeeClosed);
      Once(s, T.SeeClosed);
      var more, v := Abandon(u, m);
      Join(s, [T.SeeClosed], u, more, v);
      steps, t := [T.SeeClosed] + more, v;
    case Woken => steps, t := Wakes(s, m);
    case TickElapsed => steps, t := Wakes(s, m);
  }

  lemma Settle(s: T.System, m: Moment) returns (steps: seq<T.Step>, t: T.System)
    requires s.pc.AtCheck? && Offers(s, m)
    ensures Runs(s, steps, t) && Ends(t, Settled(s.core, m))
  {
    var s1 := T.Apply(s, T.ReadStatus);
    Once(s, T.ReadStatus);
    if MustAbort(s.core) {
      var more, u := Abandon(s1, m);
      Join(s, [T.ReadStatus], s1, more, u);
      steps, t := [T.ReadStatus] + more, u;
    } else {
      var s2 := T.Apply(s1, T.PassGate);
      Once(s1, T.PassGate);
      Join(s, [T.ReadStatus], s1, [T.PassGate], s2);
      steps, t := [T.ReadStatus] + [T.PassGate], s2;
      if !s.core.work.justActivated {
        var more, u := Select(s2, m);
        Join(s, steps, s2, more, u);
        steps, t := steps + more, u;
      }
    }
  }

  lemma TakeJob(s: T.System, m: Moment) returns (steps: seq<T.Step>, t: T.System)
    requires s.pc.AtJob? && Offers(s, m)
    ensures Runs(s, steps, t) && t.pc.AtCheck? && Offers(t, m) && t.core == JobTaken(s.core, m)
  {
    var first, u := ThenStep(s, m, BeforeJob, T.PollActiveJob(m.job, m.fired));
    var more, v := Interfere(u, m, BeforeCheck);
    Join(s, first, u, more, v);
    steps, t := first + more, v;
  }

  // Every turn, for every state of the runtime thread and everything it can learn from outside,
  // is a legal run of the protocol: the same state at the end, and the same place in the loop.
  lemma EveryTurnIsARun(s: T.System, m: Moment) returns (steps: seq<T.Step>, t: T.System)
    requires s.pc == T.LoopHead && Offers(s, m)
    ensures Runs(s, steps, t) && Ends(t, TurnTaken(s.core, m))
  {
    var first, u := ThenStep(s, m, BeforeLoop, T.PollEventLoop(m.loop, m.fired));
    steps, t := first, u;
    if u.pc.AtJob? {
      var more, v := TakeJob(u, m);
      Join(s, steps, u, more, v);
      var rest, w := Settle(v, m);
      Join(s, steps + more, v, rest, w);
      steps, t := steps + more + rest, w;
    }
  }

  // The system in which a moment finds a runtime thread at the head of its loop.
  function Stage(c: Core, m: Moment): T.System {
    T.FRESH.(core := c, now := m.now, open := !m.selected.Closed?,
             queue := if m.selected.Arrived? then [m.selected.cmd] else [])
  }

  lemma EveryMomentHasItsRun(c: Core, m: Moment) returns (steps: seq<T.Step>, t: T.System)
    ensures Runs(Stage(c, m), steps, t) && Ends(t, TurnTaken(c, m))
  {
    steps, t := EveryTurnIsARun(Stage(c, m), m);
  }
}
