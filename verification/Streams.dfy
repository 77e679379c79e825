// Stream chunks as values, and the books the stream registries keep.
module Streams {
  import opened Wrappers
  import opened JsValue

  datatype StreamChunk = StreamChunk(done: bool, value: Option<JSValue>)

  datatype StreamError = BadChunk | UnknownStream | ConversionFailed | StreamErrored

  const STREAM_CHUNK_TYPE := "StreamChunk"
  const STREAM_CHUNK_DONE_KEY := "done"
  const STREAM_CHUNK_VALUE_KEY := "value"

  // ---- chunks as values ----

  function Optional(key: string, value: Option<JSValue>): seq<Prop> {
    if value.Some? then [Prop(key, value.value)] else []
  }

  function ToJsValue(c: StreamChunk): JSValue {
    Object([Prop(TYPE_TAG, Str(STREAM_CHUNK_TYPE))]
           + ([Prop(STREAM_CHUNK_DONE_KEY, Bool(c.done))] + Optional(STREAM_CHUNK_VALUE_KEY, c.value)))
  }

  // IndexMap::shift_remove.
  function ShiftRemove(props: seq<Prop>, key: string): (seq<Prop>, Option<JSValue>) {
    match IndexOf(props, key)
    case None => (props, None)
    case Some(i) => (props[..i] + props[i + 1..], Some(props[i].value))
  }

  function FromJsValue(payload: JSValue): Result<StreamChunk, StreamError> {
    match payload
    case Object(props) =>
      var (props1, tag) := ShiftRemove(props, TYPE_TAG);
      var (props2, done) := ShiftRemove(props1, STREAM_CHUNK_DONE_KEY);
      var value := ShiftRemove(props2, STREAM_CHUNK_VALUE_KEY).1;
      (match done
       case Some(Bool(flag)) => Ok(StreamChunk(flag, value))
       case Some(Str(text)) =>
         if tag == Some(Str(STREAM_CHUNK_TYPE)) then Err(BadChunk)
         else if text == "true" then Ok(StreamChunk(true, value))
         else if text == "false" then Ok(StreamChunk(false, value))
         else Err(BadChunk)
       case _ => Err(BadChunk))
    case _ => Err(BadChunk)
  }

  lemma WithoutHead(head: Prop, rest: seq<Prop>)
    requires !HasKey(rest, head.key)
    ensures ShiftRemove([head] + rest, head.key) == (rest, Some(head.value))
  {
    var props := [head] + rest;
    assert props[0].key == head.key;
    assert forall j :: 1 <= j < |props| ==> props[j] == rest[j - 1];
    assert IndexOf(props, head.key) == Some(0);
    assert props[..0] + props[1..] == rest;
  }

  lemma ChunkKeysDiffer()
    ensures TYPE_TAG != STREAM_CHUNK_DONE_KEY && TYPE_TAG != STREAM_CHUNK_VALUE_KEY
    ensures STREAM_CHUNK_DONE_KEY != STREAM_CHUNK_VALUE_KEY
  {
    assert |TYPE_TAG| == 11 && |STREAM_CHUNK_DONE_KEY| == 4 && |STREAM_CHUNK_VALUE_KEY| == 5;
  }

  lemma TakenApart(props: seq<Prop>, props1: seq<Prop>, tag: Option<JSValue>, props2: seq<Prop>, flag: bool)
    requires ShiftRemove(props, TYPE_TAG) == (props1, tag)
    requires ShiftRemove(props1, STREAM_CHUNK_DONE_KEY) == (props2, Some(Bool(flag)))
    ensures FromJsValue(Object(props)) == Ok(StreamChunk(flag, ShiftRemove(props2, STREAM_CHUNK_VALUE_KEY).1))
  {
  }

  lemma OptionalLacks(key: string, value: Option<JSValue>, other: string)
    requires key != other
    ensures !HasKey(Optional(key, value), other)
  {
  }

  lemma HeadLacks(head: Prop, rest: seq<Prop>, other: string)
    requires head.key != other && !HasKey(rest, other)
    ensures !HasKey([head] + rest, other)
  {
    assert forall j :: 1 <= j < |[head] + rest| ==> ([head] + rest)[j] == rest[j - 1];
  }

  lemma LastEntry(key: string, value: Option<JSValue>)
    ensures ShiftRemove(Optional(key, value), key).1 == value
  {
    if value.Some? {
      assert Optional(key, value) == Optional(key, value) + [];
      WithoutHead(Prop(key, value.value), []);
    }
  }

  // Taking three entries out of an object, one after the other.
  lemma ThreeEntries(a: Prop, b: Prop, key: string, value: Option<JSValue>)
    requires a.key != b.key && a.key != key && b.key != key
    ensures var last := Optional(key, value);
      && ShiftRemove([a] + ([b] + last), a.key) == ([b] + last, Some(a.value))
      && ShiftRemove([b] + last, b.key) == (last, Some(b.value))
      && ShiftRemove(last, key).1 == value
  {
    var last := Optional(key, value);
    OptionalLacks(key, value, a.key);
    OptionalLacks(key, value, b.key);
    HeadLacks(b, last, a.key);
    WithoutHead(a, [b] + last);
    WithoutHead(b, last);
    LastEntry(key, value);
  }

  // A chunk survives its value form, whatever value it carries.
  lemma ChunkRoundTrip(c: StreamChunk)
    ensures FromJsValue(ToJsValue(c)) == Ok(c)
  {
    ChunkKeysDiffer();
    var tag, done := Prop(TYPE_TAG, Str(STREAM_CHUNK_TYPE)), Prop(STREAM_CHUNK_DONE_KEY, Bool(c.done));
    var last := Optional(STREAM_CHUNK_VALUE_KEY, c.value);
    ThreeEntries(tag, done, STREAM_CHUNK_VALUE_KEY, c.value);
    TakenApart([tag] + ([done] + last), [done] + last, Some(tag.value), last, c.done);
  }

  // What a guest reader's read() resolves to.
  lemma ReadResultIsAChunk(flag: bool, value: JSValue)
    ensures FromJsValue(Object([Prop(STREAM_CHUNK_DONE_KEY, Bool(flag)), Prop(STREAM_CHUNK_VALUE_KEY, value)]))
      == Ok(StreamChunk(flag, Some(value)))
  {
    ChunkKeysDiffer();
    var done, val := Prop(STREAM_CHUNK_DONE_KEY, Bool(flag)), Prop(STREAM_CHUNK_VALUE_KEY, value);
    assert [done, val] == [done] + [val] && [val] == [val] + [];
    assert ShiftRemove([done, val], TYPE_TAG) == ([done, val], None);
    WithoutHead(done, [val]);
    WithoutHead(val, []);
    TakenApart([done, val], [done, val], None, [val], flag);
  }

  // A done flag given as text is read only where no chunk tag says otherwise.
  lemma TextFlagIsRead(props: seq<Prop>, text: string, tag: Option<JSValue>)
    requires DistinctKeys(props) && Get(props, TYPE_TAG) == tag && Get(props, STREAM_CHUNK_DONE_KEY) == Some(Str(text))
    ensures var r := FromJsValue(Object(props));
      if tag != Some(Str(STREAM_CHUNK_TYPE)) && (text == "true" || text == "false")
      then r == Ok(StreamChunk(text == "true", Get(props, STREAM_CHUNK_VALUE_KEY)))
      else r == Err(BadChunk)
  {
    ChunkKeysDiffer();
    var (props1, t) := ShiftRemove(props, TYPE_TAG);
    ShiftLeaves(props, TYPE_TAG, STREAM_CHUNK_DONE_KEY);
    ShiftLeaves(props, TYPE_TAG, STREAM_CHUNK_VALUE_KEY);
    ShiftLeaves(props1, STREAM_CHUNK_DONE_KEY, STREAM_CHUNK_VALUE_KEY);
    assert t == tag;
  }

  // Taking one entry out leaves the others where they can be found.
  lemma ShiftLeaves(props: seq<Prop>, key: string, other: string)
    requires DistinctKeys(props) && key != other
    ensures DistinctKeys(ShiftRemove(props, key).0) && Get(ShiftRemove(props, key).0, other) == Get(props, other)
    ensures ShiftRemove(props, key).1 == Get(props, key)
  {
    var after := ShiftRemove(props, key).0;
    if HasKey(props, key) {
      var i := IndexOf(props, key).value;
      assert forall j :: 0 <= j < |after| ==> after[j] == props[if j < i then j else j + 1];
      forall j | 0 <= j < |props| && props[j].key == other ensures props[j] in after {
        assert after[if j < i then j else j - 1] == props[j];
      }
    }
    SameLookup(props, after, other);
  }

  // ---- Python streams ----

  // What each call of an iterator's __anext__ does; past the end it stops.
  datatype Next = Item(value: JSValue) | Unconvertible | Raises

  const U32: nat := 0x1_0000_0000
  const U64: nat := 0x1_0000_0000_0000_0000

  function ByteCount(c: StreamChunk): nat {
    if c.value.Some? && c.value.value.Bytes? then |c.value.value.bytes| else 0
  }

  predicate NoRepeats(ids: seq<nat>) {
    forall i, j :: 0 <= i < j < |ids| ==> ids[i] != ids[j]
  }

  // The registry's books and the handle's: ids that are live, removed but not yet announced to
  // the release listener, announced; registered but not yet tracked by the handle, tracked, and
  // tracked only after they had been announced.
  datatype Ledger = Ledger(
    entries: set<nat>, removed: set<nat>, fired: seq<nat>,
    awaiting: set<nat>, tracked: set<nat>, late: set<nat>,
    nextId: nat, active: nat, total: nat)

  const EMPTY := Ledger({}, {}, [], {}, {}, {}, 1, 0, 0)

  // Ids and counters are machine words.
  function Wrap32(n: nat): nat {
    n % U32
  }

  function Wrap64(n: nat): nat {
    n % U64
  }

  // Registering and tracking are two steps under two locks; so are removing and announcing.
  function Opened(l: Ledger): Ledger {
    l.(entries := l.entries + {l.nextId}, awaiting := l.awaiting + {l.nextId},
       nextId := Wrap32(l.nextId + 1), active := Wrap64(l.active + 1), total := Wrap64(l.total + 1))
  }

  function Removed(l: Ledger, id: nat): Ledger {
    if id !in l.entries then l
    else l.(entries := l.entries - {id}, removed := l.removed + {id},
            active := if l.active == 0 then U64 - 1 else l.active - 1)
  }

  function Announced(l: Ledger, id: nat): Ledger {
    if id !in l.removed then l
    else l.(removed := l.removed - {id}, fired := l.fired + [id], tracked := l.tracked - {id})
  }

  function Tracked(l: Ledger, id: nat): Ledger {
    if id !in l.awaiting then l
    else l.(awaiting := l.awaiting - {id}, tracked := l.tracked + {id},
            late := if id in l.fired then l.late + {id} else l.late)
  }

  function Untracked(l: Ledger, ids: set<nat>): Ledger {
    l.(tracked := l.tracked - ids, late := l.late - ids)
  }

  // A removal with its announcement.
  function Closed(l: Ledger, id: nat): Ledger {
    if id in l.entries then Announced(Removed(l, id), id) else l
  }

  // Every id issued is live, on its way out, or has been announced as released, once.
  ghost predicate Accounted(l: Ledger) {
    && l.nextId == l.total + 1
    && (forall id :: id in l.entries ==> 1 <= id <= l.total && id !in l.removed && id !in l.fired)
    && (forall id :: id in l.removed ==> 1 <= id <= l.total && id !in l.fired)
    && (forall id :: id in l.fired ==> 1 <= id <= l.total)
    && (forall id: nat {:trigger id in l.fired} ::
          1 <= id <= l.total && id !in l.entries && id !in l.removed ==> id in l.fired)
    && NoRepeats(l.fired)
  }

  ghost predicate Counted(l: Ledger) {
    l.active == |l.entries| && l.active <= l.total
  }

  // The handle tracks ids once each; a tracked id that was not announced first is still live or
  // on its way out.
  ghost predicate TrackedSoundly(l: Ledger) {
    && (forall id :: id in l.awaiting ==> 1 <= id <= l.total && id !in l.tracked)
    && (forall id :: id in l.tracked ==> 1 <= id <= l.total)
    && (forall id :: id in l.late ==> id in l.tracked && id in l.fired)
    && (forall id :: id in l.tracked && id in l.fired ==> id in l.late)
  }

  ghost predicate Balanced(l: Ledger) {
    Accounted(l) && Counted(l) && TrackedSoundly(l)
  }

  // Ids are 32 bits wide: one more stream fits without a wrap.
  lemma OpenedBalances(l: Ledger)
    requires Balanced(l) && l.total < U32 - 2
    ensures Balanced(Opened(l)) && Opened(l).total == l.total + 1
    ensures l.nextId !in l.entries && l.nextId !in l.fired
  {
    OpenedCounts(l);
    OpenedAccounts(l);
    OpenedTracks(l);
  }

  lemma OpenedCounts(l: Ledger)
    requires Balanced(l) && l.total < U32 - 2
    ensures Opened(l).total == l.total + 1 && Opened(l).nextId == l.nextId + 1 && Counted(Opened(l))
  {
    assert l.nextId !in l.entries;
    assert |l.entries + {l.nextId}| == |l.entries| + 1;
  }

  lemma OpenedAccounts(l: Ledger)
    requires Accounted(l) && Opened(l).total == l.total + 1 && Opened(l).nextId == l.nextId + 1
    ensures Accounted(Opened(l))
  {
  }

  lemma OpenedTracks(l: Ledger)
    requires Accounted(l) && TrackedSoundly(l) && Opened(l).total == l.total + 1
    ensures TrackedSoundly(Opened(l))
  {
  }

  lemma RemovedBalances(l: Ledger, id: nat)
    requires Balanced(l)
    ensures Balanced(Removed(l, id))
  {
    if id in l.entries {
      assert |l.entries - {id}| == |l.entries| - 1;
    }
  }

  lemma FiredOneMore(fired: seq<nat>, id: nat)
    ensures forall x :: x in fired + [id] <==> x in fired || x == id
    ensures NoRepeats(fired) && id !in fired ==> NoRepeats(fired + [id])
  {
  }

  lemma AnnouncedBalances(l: Ledger, id: nat)
    requires Balanced(l)
    ensures Balanced(Announced(l, id))
  {
    FiredOneMore(l.fired, id);
  }

  lemma TrackedBalances(l: Ledger, id: nat)
    requires Balanced(l)
    ensures Balanced(Tracked(l, id))
  {
  }

  lemma UntrackedBalances(l: Ledger, ids: set<nat>)
    requires Balanced(l)
    ensures Balanced(Untracked(l, ids))
  {
  }

  // ---- every interleaving of the two threads' steps ----

  datatype LedgerEvent = Open | Remove(id: nat) | Announce(id: nat) | Track(id: nat) | Untrack(ids: set<nat>)

  predicate Possible(l: Ledger, e: LedgerEvent) {
    match e
    case Open => true
    case Remove(id) => id in l.entries
    case Announce(id) => id in l.removed
    case Track(id) => id in l.awaiting
    case Untrack(_) => true
  }

  function After(l: Ledger, e: LedgerEvent): Ledger {
    match e
    case Open => Opened(l)
    case Remove(id) => Removed(l, id)
    case Announce(id) => Announced(l, id)
    case Track(id) => Tracked(l, id)
    case Untrack(ids) => Untracked(l, ids)
  }

  function Replay(log: seq<LedgerEvent>): Ledger {
    if log == [] then EMPTY else After(Replay(log[..|log| - 1]), log[|log| - 1])
  }

  // Each event was possible when it happened, and the ids have not wrapped.
  predicate History(log: seq<LedgerEvent>) {
    log == [] ||
    var front, last := log[..|log| - 1], log[|log| - 1];
    History(front) && Possible(Replay(front), last) && (last.Open? ==> Replay(front).total < U32 - 2)
  }

  lemma AfterBalances(l: Ledger, e: LedgerEvent)
    requires Balanced(l) && (e.Open? ==> l.total < U32 - 2)
    ensures Balanced(After(l, e))
  {
    match e
    case Open => OpenedBalances(l);
    case Remove(id) => RemovedBalances(l, id);
    case Announce(id) => AnnouncedBalances(l, id);
    case Track(id) => TrackedBalances(l, id);
    case Untrack(ids) => UntrackedBalances(l, ids);
  }

  lemma {:induction false} HistoriesBalance(log: seq<LedgerEvent>)
    requires History(log)
    ensures Balanced(Replay(log))
    decreases |log|
  {
    if log != [] {
      HistoriesBalance(log[..|log| - 1]);
      AfterBalances(Replay(log[..|log| - 1]), log[|log| - 1]);
    }
  }

  predicate Happened(log: seq<LedgerEvent>, e: LedgerEvent) {
    exists i :: 0 <= i < |log| && log[i] == e
  }

  lemma {:induction false} FiredMeansAnnounced(log: seq<LedgerEvent>, id: nat)
    requires History(log)
    ensures id in Replay(log).fired <==> Happened(log, Announce(id))
    decreases |log|
  {
    if log != [] {
      var front, last := log[..|log| - 1], log[|log| - 1];
      FiredMeansAnnounced(front, id);
      HappenedGrows(front, last, Announce(id));
      assert log == front + [last];
      if last.Announce? {
        FiredOneMore(Replay(front).fired, last.id);
      }
    }
  }

  lemma HappenedGrows(front: seq<LedgerEvent>, last: LedgerEvent, e: LedgerEvent)
    ensures Happened(front + [last], e) <==> Happened(front, e) || last == e
  {
    var log := front + [last];
    if Happened(front, e) {
      var i :| 0 <= i < |front| && front[i] == e;
      assert log[i] == e;
    }
    if last == e {
      assert log[|front|] == e;
    }
  }

  // Tracking came after the announcement, and the handle has not let go since.
  ghost predicate TrackedTooLate(log: seq<LedgerEvent>, id: nat) {
    exists j: nat :: TooLateAt(log, id, j)
  }

  predicate TooLateAt(log: seq<LedgerEvent>, id: nat, j: nat) {
    && j < |log| && log[j] == Track(id) && Happened(log[..j], Announce(id))
    && forall k :: j < k < |log| && log[k].Untrack? ==> id !in log[k].ids
  }

  lemma TooLateGrows(front: seq<LedgerEvent>, last: LedgerEvent, id: nat)
    ensures TrackedTooLate(front + [last], id) <==>
      || (last == Track(id) && Happened(front, Announce(id)))
      || (TrackedTooLate(front, id) && !(last.Untrack? && id in last.ids))
  {
    var log := front + [last];
    if TrackedTooLate(log, id) {
      var j: nat :| TooLateAt(log, id, j);
      if j < |front| {
        assert log[..j] == front[..j];
        assert forall k :: j < k < |front| ==> front[k] == log[k];
        assert TooLateAt(front, id, j);
        assert log[|front|] == last;
      } else {
        assert log[..j] == front;
      }
    }
    if last == Track(id) && Happened(front, Announce(id)) {
      assert log[..|front|] == front && TooLateAt(log, id, |front|);
    }
    if TrackedTooLate(front, id) && !(last.Untrack? && id in last.ids) {
      var j: nat :| TooLateAt(front, id, j);
      assert log[..j] == front[..j];
      assert TooLateAt(log, id, j);
    }
  }

  lemma {:induction false} LateMeansTooLate(log: seq<LedgerEvent>, id: nat)
    requires History(log)
    ensures id in Replay(log).late <==> TrackedTooLate(log, id)
    decreases |log|
  {
    if log != [] {
      var front, last := log[..|log| - 1], log[|log| - 1];
      LateMeansTooLate(front, id);
      FiredMeansAnnounced(front, id);
      TooLateGrows(front, last, id);
      assert log == front + [last];
    }
  }

  // Over every interleaving: a tracked id that is neither live nor still being removed is one
  // whose release was announced before the handle got round to tracking it, and no other.
  lemma DeadIdsWereTrackedTooLate(log: seq<LedgerEvent>, id: nat)
    requires History(log)
    ensures var l := Replay(log);
      id in l.tracked && id !in l.entries && id !in l.removed <==> TrackedTooLate(log, id)
  {
    HistoriesBalance(log);
    LateMeansTooLate(log, id);
  }

  // So the handle's ids are not always live: the guest cancels the stream in between.
  lemma CancelledBeforeTracked()
    ensures var log := [Open, Remove(1), Announce(1), Track(1)];
      History(log) && Replay(log).entries == {} && Replay(log).tracked == {1}
  {
    var log := [Open, Remove(1), Announce(1), Track(1)];
    assert log[..3] == [Open, Remove(1), Announce(1)];
    assert log[..3][..2] == [Open, Remove(1)];
    assert log[..3][..2][..1] == [Open];
    assert log[..3][..2][..1][..0] == [];
    assert Replay([Open]) == Opened(EMPTY);
    assert Replay([Open, Remove(1)]) == Removed(Opened(EMPTY), 1);
    assert Replay([Open, Remove(1), Announce(1)]) == Announced(Removed(Opened(EMPTY), 1), 1);
    assert Replay(log) == Tracked(Announced(Removed(Opened(EMPTY), 1), 1), 1);
  }

  // ---- the registry ----

  ghost predicate BalancedUntilWrap(l: Ledger, issued: nat) {
    issued < U32 - 1 ==> Balanced(l) && l.total == issued
  }

  lemma OpenedKeeps(l: Ledger, issued: nat)
    requires BalancedUntilWrap(l, issued)
    ensures BalancedUntilWrap(Opened(l), issued + 1)
  {
    if issued < U32 - 2 {
      OpenedBalances(l);
    }
  }

  lemma OthersKeep(l: Ledger, issued: nat, id: nat, ids: set<nat>)
    requires BalancedUntilWrap(l, issued)
    ensures BalancedUntilWrap(Closed(l, id), issued)
    ensures BalancedUntilWrap(Tracked(l, id), issued)
    ensures BalancedUntilWrap(Untracked(l, ids), issued)
  {
    if issued < U32 - 1 {
      RemovedBalances(l, id);
      AnnouncedBalances(Removed(l, id), id);
      TrackedBalances(l, id);
      UntrackedBalances(l, ids);
    }
  }

  // The registry together with its handle's tracked ids, as one thread sees them.
  class PyStreamRegistry {
    var entries: set<nat>
    var scripts: map<nat, seq<Next>>   // what each iterator has left
    var nextId: nat
    var active: nat
    var total: nat
    var bytes: nat
    var tracked: set<nat>              // the handle's ids; its release listener removes them
    ghost var removed: set<nat>
    ghost var fired: seq<nat>          // listener calls, in order
    ghost var awaiting: set<nat>
    ghost var late: set<nat>
    ghost var issued: nat
    ghost var delivered: nat

    ghost function Now(): Ledger
      reads this
    {
      Ledger(entries, removed, fired, awaiting, tracked, late, nextId, active, total)
    }

    // The books balance until the ids wrap; the byte counter wraps on its own.
    ghost predicate Valid()
      reads this
    {
      && BalancedUntilWrap(Now(), issued)
      && bytes == delivered % U64 && entries <= scripts.Keys
      && nextId < U32 && active < U64 && total < U64
    }

    constructor ()
      ensures Valid() && issued == 0 && Now() == EMPTY
    {
      entries, scripts, nextId, active, total, bytes, tracked := {}, map[], 1, 0, 0, 0, {};
      removed, fired, awaiting, late, issued, delivered := {}, [], {}, {}, 0, 0;
    }

    method RegisterIterable(script: seq<Next>) returns (id: nat)
      requires Valid()
      modifies `entries, `scripts, `nextId, `active, `total, `awaiting, `issued
      ensures Valid() && issued == old(issued) + 1
      ensures id == old(nextId) && Now() == Opened(old(Now())) && scripts == old(scripts)[id := script]
    {
      OpenedKeeps(Now(), issued);
      id := nextId;
      nextId := Wrap32(nextId + 1);
      entries := entries + {id};
      scripts := scripts[id := script];
      active := Wrap64(active + 1);
      total := Wrap64(total + 1);
      awaiting := awaiting + {id};
      issued := issued + 1;
    }

    method TrackId(id: nat)
      requires Valid() && id in awaiting
      modifies `tracked, `awaiting, `late
      ensures Valid() && Now() == Tracked(old(Now()), id)
    {
      OthersKeep(Now(), issued, id, {});
      tracked := tracked + {id};
      awaiting := awaiting - {id};
      late := if id in fired then late + {id} else late;
    }

    // Removing an entry announces it, exactly when it was still there.
    method RemoveEntry(id: nat) returns (wasThere: bool)
      requires Valid()
      modifies `entries, `removed, `active, `fired, `tracked
      ensures Valid() && wasThere == (id in old(entries)) && Now() == Closed(old(Now()), id)
    {
      OthersKeep(Now(), issued, id, {});
      wasThere := id in entries;
      if wasThere {
        entries, removed := entries - {id}, removed + {id};
        active := if active == 0 then U64 - 1 else active - 1;
        removed, fired := removed - {id}, fired + [id];
        tracked := tracked - {id};
      }
    }

    // The iterator is asked for its next value; the chunk is accounted for when it arrives,
    // and the last one releases the stream.
    method PullNext(id: nat) returns (r: Result<StreamChunk, StreamError>)
      requires Valid()
      modifies `entries, `removed, `scripts, `active, `bytes, `fired, `tracked, `delivered
      ensures Valid()
      ensures id !in old(entries) ==> r == Err(UnknownStream) && Now() == old(Now()) && scripts == old(scripts)
      ensures id in old(entries) ==>
        var script := old(scripts)[id];
        && r == Pulled(script)
        && scripts == old(scripts)[id := if script == [] then [] else script[1..]]
        && Now() == if script == [] then Closed(old(Now()), id) else old(Now())
      ensures delivered == old(delivered) + if r.Ok? then ByteCount(r.value) else 0
      ensures r.Ok? ==>
        match r.value.value
        case Some(Bytes(chunk)) => delivered == old(delivered) + |chunk|
        case _ => delivered == old(delivered)
    {
      if id !in entries {
        return Err(UnknownStream);
      }
      r := Pulled(scripts[id]);
      scripts := scripts[id := if scripts[id] == [] then [] else scripts[id][1..]];
      if r.Err? {
        return;
      }
      bytes := (bytes + ByteCount(r.value)) % U64;
      delivered := delivered + ByteCount(r.value);
      assert Now() == old(Now());
      if r.value.done {
        var _ := RemoveEntry(id);
      }
    }

    method Cancel(id: nat)
      requires Valid()
      modifies `entries, `removed, `active, `fired, `tracked
      ensures Valid() && Now() == Closed(old(Now()), id)
    {
      var _ := RemoveEntry(id);
    }

    // The handle gives a stream up: released, then untracked.
    method ReleaseFromHandle(id: nat)
      requires Valid()
      modifies `entries, `removed, `active, `fired, `tracked, `late
      ensures Valid() && Now() == Untracked(Closed(old(Now()), id), {id})
    {
      var _ := RemoveEntry(id);
      OthersKeep(Now(), issued, id, {id});
      tracked := tracked - {id};
      late := late - {id};
    }

    // Cleaning up: an id handed back is live, unless it was tracked too late.
    method DrainTracked() returns (ids: set<nat>)
      requires Valid()
      modifies `tracked, `late
      ensures Valid() && ids == old(tracked) && Now() == Untracked(old(Now()), ids)
      ensures issued < U32 - 1 ==>
        forall id :: id in ids ==> (id in entries || id in removed <==> id !in old(late))
    {
      OthersKeep(Now(), issued, 0, tracked);
      ids := tracked;
      tracked := {};
      late := late - ids;
    }
  }

  function Pulled(script: seq<Next>): Result<StreamChunk, StreamError> {
    if script == [] then Ok(StreamChunk(true, None))
    else
      match script[0]
      case Item(value) => Ok(StreamChunk(false, Some(value)))
      case Unconvertible => Err(ConversionFailed)
      case Raises => Err(StreamErrored)
  }

  // ---- JavaScript streams ----

  datatype JsStreamEntry = JsStreamEntry(chunks: nat, transferred: nat)

  class JsStreamRegistry {
    var entries: map<nat, JsStreamEntry>
    var nextId: nat
    var active: nat
    var total: nat
    var bytes: nat
    ghost var issued: nat
    ghost var delivered: nat

    // The byte counter saturates instead of wrapping.
    ghost predicate Valid()
      reads this
    {
      && (issued < U32 - 1 ==>
          && nextId == issued && total == issued && active == |entries| && active <= total
          && forall id :: id in entries ==> id < issued)
      && bytes == Sat(delivered)
    }

    constructor ()
      ensures Valid() && issued == 0 && entries == map[]
    {
      entries, nextId, active, total, bytes := map[], 0, 0, 0, 0;
      issued, delivered := 0, 0;
    }

    method RegisterStream() returns (id: nat)
      requires Valid()
      modifies this
      ensures Valid() && issued == old(issued) + 1 && delivered == old(delivered)
      ensures entries == old(entries)[id := JsStreamEntry(0, 0)]
      ensures issued < U32 - 1 ==> id !in old(entries)
    {
      id := nextId;
      nextId := (nextId + 1) % U32;
      entries := entries[id := JsStreamEntry(0, 0)];
      active := Sat(active + 1);
      total := Sat(total + 1);
      issued := issued + 1;
    }

    method Release(id: nat)
      requires Valid()
      modifies this
      ensures Valid() && entries == old(entries) - {id} && issued == old(issued) && delivered == old(delivered)
    {
      if id in entries {
        active := if active == 0 then 0 else active - 1;
        OneFewer(entries, id);
      }
      entries := entries - {id};
    }

    // A chunk of a stream that is gone is not counted.
    method UpdateStatsAfterChunk(id: nat, c: StreamChunk)
      requires Valid()
      modifies this
      ensures Valid() && issued == old(issued)
      ensures entries == if id in old(entries) then
          var e := old(entries)[id];
          old(entries)[id := JsStreamEntry(Sat(e.chunks + 1), Sat(e.transferred + ByteCount(c)))]
        else old(entries)
      ensures delivered == old(delivered) + if id in old(entries) then ByteCount(c) else 0
      ensures id in old(entries) ==>
        match c.value
        case Some(Bytes(chunk)) => delivered == old(delivered) + |chunk|
        case _ => delivered == old(delivered)
    {
      if id in entries {
        var e := entries[id];
        var counted := e.(chunks := Sat(e.chunks + 1), transferred := Sat(e.transferred + ByteCount(c)));
        entries := entries[id := counted];
        assert entries.Keys == old(entries).Keys;
        assert |entries| == |entries.Keys| && |old(entries)| == |old(entries).Keys|;
        bytes := Sat(bytes + ByteCount(c));
        delivered := delivered + ByteCount(c);
      }
    }
  }

  lemma OneFewer(m: map<nat, JsStreamEntry>, id: nat)
    requires id in m
    ensures |m - {id}| == |m| - 1
  {
    assert (m - {id}).Keys == m.Keys - {id};
    assert |m - {id}| == |(m - {id}).Keys| && |m| == |m.Keys|;
  }
}
