// The caller's side of a wait: `recv_result` blocks in timed slices once a grace period is
// configured, and gives the runtime up when a requested termination is not acknowledged.
module ForceKill {
  import opened Wrappers
  import opened DispatcherCore
  import opened Dispatcher

  const POLL_SLICE: nat := 5_000_000   // nanoseconds

  // What one blocking receive learned: a result, a dropped responder, or nothing by `now`.
  datatype Slice = Got(value: nat) | Disconnected | Quiet(now: nat, requested: bool)

  datatype Outcome = Received(value: nat) | Lost | ForceKilled | StillWaiting

  predicate SeenRequest(slices: seq<Slice>, i: nat) {
    i < |slices| && slices[i].Quiet? && slices[i].requested
  }

  predicate FirstSeen(slices: seq<Slice>, s: nat) {
    SeenRequest(slices, s) && forall i :: 0 <= i < s ==> !SeenRequest(slices, i)
  }

  // Slice `k` is where the grace, counted from the first sighting `s`, has run out.
  predicate GraceOver(slices: seq<Slice>, grace: nat, s: nat, k: nat) {
    s <= k && FirstSeen(slices, s) && SeenRequest(slices, k) && slices[s].now + grace <= slices[k].now
  }

  ghost predicate GraceOverAt(slices: seq<Slice>, grace: nat, k: nat) {
    exists s: nat :: GraceOver(slices, grace, s, k)
  }

  predicate AllQuiet(slices: seq<Slice>, n: nat) {
    n <= |slices| && forall i :: 0 <= i < n ==> slices[i].Quiet?
  }

  // A timed receive that returns nothing has lasted a whole slice.
  predicate Timed(slices: seq<Slice>) {
    forall i :: 0 <= i && i + 1 < |slices| && slices[i].Quiet? && slices[i + 1].Quiet? ==>
      slices[i].now + POLL_SLICE <= slices[i + 1].now
  }

  // `used` slices were consumed.  Without a grace the wait never force-kills.
  method Wait(grace: Option<nat>, slices: seq<Slice>) returns (r: Outcome, used: nat)
    ensures used <= |slices|
    ensures r.StillWaiting? ==> used == |slices| && AllQuiet(slices, used)
    ensures !r.StillWaiting? ==> used > 0 && AllQuiet(slices, used - 1)
    ensures r.Received? <==> used > 0 && slices[used - 1].Got?
    ensures r.Received? ==> slices[used - 1] == Got(r.value)
    ensures r.Lost? <==> used > 0 && slices[used - 1].Disconnected?
    // Force-killed exactly at the first slice at which the grace is over.
    ensures r.ForceKilled? <==> grace.Some? && used > 0 && GraceOverAt(slices, grace.value, used - 1)
    ensures grace.Some? ==> forall k :: 0 <= k < used - 1 ==> !GraceOverAt(slices, grace.value, k)
  {
    used := 0;
    var seenAt: Option<nat> := None;
    ghost var first: nat := 0;
    while used < |slices|
      invariant used <= |slices| && AllQuiet(slices, used)
      invariant seenAt.None? ==> forall i :: 0 <= i < used ==> !SeenRequest(slices, i) || grace.None?
      invariant seenAt.Some? ==> first < used && FirstSeen(slices, first) && slices[first].now == seenAt.value
      invariant grace.Some? ==> forall k :: 0 <= k < used ==> !GraceOverAt(slices, grace.value, k)
    {
      var slice := slices[used];
      used := used + 1;
      match slice
      case Got(v) => return Received(v), used;
      case Disconnected => return Lost, used;
      case Quiet(now, requested) =>
        if grace.Some? && requested {
          if seenAt.None? {
            seenAt := Some(now);
            first := used - 1;
          }
          if seenAt.value + grace.value <= now {
            assert GraceOver(slices, grace.value, first, used - 1);
            return ForceKilled, used;
          }
        }
    }
    r := StillWaiting;
  }

  function SlicesIn(grace: nat): nat {
    (grace + POLL_SLICE - 1) / POLL_SLICE
  }

  lemma {:induction false} QuietTimeAdds(slices: seq<Slice>, s: nat, n: nat)
    requires Timed(slices) && s + n < |slices|
    requires forall i :: s <= i <= s + n ==> slices[i].Quiet?
    ensures slices[s].now + n * POLL_SLICE <= slices[s + n].now
    decreases n
  {
    if n > 0 {
      QuietTimeAdds(slices, s, n - 1);
      assert slices[s + n - 1].Quiet? && slices[s + n].Quiet?;
    }
  }

  // A silent runtime is given up within SlicesIn(grace) + 1 slices of the first sighting.
  lemma GivesUpInTime(slices: seq<Slice>, grace: nat, s: nat)
    requires Timed(slices) && FirstSeen(slices, s) && s + SlicesIn(grace) < |slices|
    requires forall i :: s <= i <= s + SlicesIn(grace) ==> SeenRequest(slices, i)
    ensures GraceOver(slices, grace, s, s + SlicesIn(grace))
  {
    assert forall i :: s <= i <= s + SlicesIn(grace) && SeenRequest(slices, i) ==> slices[i].Quiet?;
    QuietTimeAdds(slices, s, SlicesIn(grace));
    assert SeenRequest(slices, s + SlicesIn(grace));
    assert grace <= SlicesIn(grace) * POLL_SLICE;
  }

  class RuntimeHandle {
    var shutdown: bool
    const termination: TerminationController
    const forceKillGrace: Option<nat>

    constructor (controller: TerminationController, grace: Option<nat>)
      ensures termination == controller && forceKillGrace == grace && !shutdown
    {
      termination, forceKillGrace, shutdown := controller, grace, false;
    }

    // A force-kill leaves the handle terminated and shut down; any other ending touches neither.
    method RecvResult(slices: seq<Slice>) returns (r: Outcome)
      modifies this`shutdown, termination`status
      ensures r.ForceKilled? ==> shutdown && termination.status == Terminated
      ensures !r.ForceKilled? ==> shutdown == old(shutdown) && termination.status == old(termination.status)
      ensures r.Received? ==> exists k :: 0 <= k < |slices| && AllQuiet(slices, k) && slices[k] == Got(r.value)
      ensures r.Lost? ==> exists k :: 0 <= k < |slices| && AllQuiet(slices, k) && slices[k].Disconnected?
      ensures r.StillWaiting? ==> AllQuiet(slices, |slices|)
      ensures r.ForceKilled? ==> forceKillGrace.Some?
      ensures r.ForceKilled? ==> exists k :: 0 <= k < |slices| && GraceOverAt(slices, forceKillGrace.value, k)
      ensures r.StillWaiting? && forceKillGrace.Some? ==>
        forall k :: 0 <= k < |slices| ==> !GraceOverAt(slices, forceKillGrace.value, k)
    {
      var used;
      r, used := Wait(forceKillGrace, slices);
      if r.ForceKilled? {
        var _ := termination.MarkTerminated();
        shutdown := true;
      }
    }
  }
}
