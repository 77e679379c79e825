// Synchronous calls that returned a promise: stored under an id, resumed at most once, as a job
// that keeps the clock of the call that started it.
module PendingCalls {
  import opened Wrappers
  import opened Jobs
  import opened WorkQueue
  import opened DispatcherCore
  import opened Dispatcher

  datatype CallResult = Returned | Pending(id: nat)

  datatype Resumed = Refused | NotFound | Submitted

  const MILLISECOND: nat := 1_000_000     // nanoseconds

  const U64: nat := 0x1_0000_0000_0000_0000

  class PendingCallTable {
    const dispatcher: RuntimeDispatcher
    const executionTimeout: Option<nat>     // the runtime's own limit, in milliseconds
    var calls: map<nat, Option<nat>>        // the promise's deadline, by call id
    var nextId: nat
    ghost var issued: seq<Option<nat>>      // the deadline of every call stored, by id
    ghost var resumed: seq<nat>             // ids taken, in order

    // Until the 64-bit ids wrap: a stored call still has the deadline it was stored with and
    // has not been taken, and no id has been taken twice.
    ghost predicate Valid()
      reads this
    {
      |issued| < U64 ==>
        && nextId == |issued|
        && (forall id :: id in calls ==> id < |issued| && calls[id] == issued[id] && id !in resumed)
        && (forall i :: 0 <= i < |resumed| ==> resumed[i] < |issued|)
        && (forall i, j :: 0 <= i < j < |resumed| ==> resumed[i] != resumed[j])
    }

    constructor (dispatcher: RuntimeDispatcher, executionTimeout: Option<nat>)
      ensures Valid() && this.dispatcher == dispatcher && this.executionTimeout == executionTimeout
      ensures issued == [] && resumed == []
    {
      this.dispatcher, this.executionTimeout := dispatcher, executionTimeout;
      calls, nextId, issued, resumed := map[], 0, [], [];
    }

    // A synchronous call with its own or the runtime's timeout, in milliseconds, on a clock that
    // starts with the call.
    method CallFunctionSync(timeout: Option<nat>, now: nat, returnsPromise: bool) returns (r: CallResult)
      requires Valid()
      modifies this
      ensures Valid() && resumed == old(resumed)
      ensures r.Pending? <==> returnsPromise
      ensures issued == if returnsPromise then old(issued) + [DeadlineFrom(timeout, now)] else old(issued)
      ensures r.Pending? && |issued| < U64 ==>
        r.id == |old(issued)| && calls == old(calls)[r.id := DeadlineFrom(timeout, now)]
    {
      var effective := if timeout.Some? then timeout else executionTimeout;
      var deadline := if effective.Some? then Some(now + effective.value * MILLISECOND) else None;
      if !returnsPromise {
        return Returned;
      }
      var id := nextId;
      nextId := (nextId + 1) % U64;
      calls := calls[id := deadline];
      issued := issued + [deadline];
      r := Pending(id);
    }

    // The moment at which a call that starts now has run for its timeout.
    function DeadlineFrom(timeout: Option<nat>, now: nat): Option<nat> {
      if timeout.Some? then Some(now + timeout.value * MILLISECOND)
      else if executionTimeout.Some? then Some(now + executionTimeout.value * MILLISECOND)
      else None
    }

    // Resuming takes the call out of the table and submits a job on the original clock.
    method ResumeFunctionCall(id: nat, refused: bool, now: nat) returns (r: Resumed)
      requires Valid()
      modifies this, dispatcher
      ensures Valid() && issued == old(issued)
      ensures r.Submitted? <==> !Rejecting(old(dispatcher.State())) && !refused && id in old(calls)
      ensures !r.Submitted? ==>
        dispatcher.State() == old(dispatcher.State()) && calls == old(calls) && resumed == old(resumed)
      ensures r.Submitted? ==>
        && dispatcher.State() == old(dispatcher.State()).(work := Submit(old(dispatcher.Contents()), PromiseJob, old(calls)[id], false, now))
        && resumed == old(resumed) + [id] && id !in calls
        && (|issued| < U64 ==> id !in old(resumed) && old(calls)[id] == issued[id])
    {
      if dispatcher.terminated || dispatcher.termination.status != Running || refused {
        return Refused;
      }
      if id !in calls {
        return NotFound;
      }
      var deadline := calls[id];
      calls := calls - {id};
      resumed := resumed + [id];
      dispatcher.SubmitJob(StartJob(PromiseJob, Inherited(deadline), false, false), now);
      r := Submitted;
    }

    // Finalising a termination drops every call that is still waiting, the first time.
    method FinalizeTermination()
      requires Valid()
      modifies `calls, dispatcher, dispatcher.termination
      ensures Valid() && dispatcher.State() == Finalised(old(dispatcher.State()))
      ensures calls == if old(dispatcher.terminated) then old(calls) else map[]
    {
      if !dispatcher.terminated {
        calls := map[];
      }
      dispatcher.FinalizeTermination();
    }
  }
}
