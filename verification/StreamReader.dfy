// The guest's readable stream over a Python iterator: chunks cross the wire, a polyfill queues
// them, and a reader takes them one at a time.
module StreamReader {
  import opened Wrappers
  import opened JsValue
  import opened WireCodec
  import opened GuestRoutes
  import opened Streams

  // Why a read was rejected.
  datatype Rejection = FromHost(e: StreamError) | NotSerializable | CannotRevive | StreamError

  datatype ReadResult = Value(g: Guest) | Done | Rejected(why: Rejection)

  datatype Revived = Revived(done: bool, value: Option<Guest>)

  // ---- a chunk's way into the guest ----

  function ReviveStreamChunk(g: Guest): Result<Revived, Thrown> {
    match g
    case GObject(props) =>
      if GGet(props, TYPE_TAG) != Some(GString(STREAM_CHUNK_TYPE)) then
        Ok(Revived(GGet(props, STREAM_CHUNK_DONE_KEY) == Some(GBool(true)), GGet(props, STREAM_CHUNK_VALUE_KEY)))
      else
        var done := GGet(props, STREAM_CHUNK_DONE_KEY) == Some(GBool(true));
        (match GGet(props, STREAM_CHUNK_VALUE_KEY)
         case None => Ok(Revived(done, None))
         case Some(v) =>
           var value :- Revive(v);
           Ok(Revived(done, Some(value))))
    case _ => Ok(Revived(false, None))
  }

  // None: the chunk cannot be serialized.
  function Arrives(c: StreamChunk): Option<Result<Revived, Thrown>> {
    match Encode(ToJsValue(c))
    case Ok(item) => Some(ReviveStreamChunk(Materialize(item)))
    case Err(_) => None
  }

  lemma EncodeSnoc(front: seq<Prop>, last: Prop)
    requires EncodeProps(front).Ok?
    ensures EncodeProps(front + [last]) ==
      if Encode(last.value).Err? then Err(Encode(last.value).error)
      else Ok(EncodeProps(front).value + [Entry(last.key, Encode(last.value).value)])
  {
    assert (front + [last])[..|front|] == front;
  }

  function Entries(k1: string, i1: Item, k2: string, i2: Item, k3: string, i3: Option<Item>): seq<Entry> {
    [] + [Entry(k1, i1)] + [Entry(k2, i2)] + if i3.Some? then [Entry(k3, i3.value)] else []
  }

  function GProps(k1: string, g1: Guest, k2: string, g2: Guest, k3: string, g3: Option<Guest>): seq<GProp> {
    [] + [GProp(k1, g1)] + [GProp(k2, g2)] + if g3.Some? then [GProp(k3, g3.value)] else []
  }

  lemma GGetSnoc(front: seq<GProp>, last: GProp, key: string)
    ensures GGet(front + [last], key) == if last.key == key then Some(last.value) else GGet(front, key)
  {
    assert (front + [last])[..|front|] == front;
  }

  lemma GetsEach(k1: string, g1: Guest, k2: string, g2: Guest, k3: string, g3: Option<Guest>)
    requires k1 != k2 && k1 != k3 && k2 != k3
    ensures var props := GProps(k1, g1, k2, g2, k3, g3);
      GGet(props, k1) == Some(g1) && GGet(props, k2) == Some(g2) && GGet(props, k3) == g3
  {
    var one, two := [] + [GProp(k1, g1)], [] + [GProp(k1, g1)] + [GProp(k2, g2)];
    forall key ensures GGet(two, key) == if key == k2 then Some(g2) else if key == k1 then Some(g1) else None {
      GGetSnoc([], GProp(k1, g1), key);
      GGetSnoc(one, GProp(k2, g2), key);
    }
    if g3.Some? {
      GGetSnoc(two, GProp(k3, g3.value), k1);
      GGetSnoc(two, GProp(k3, g3.value), k2);
      GGetSnoc(two, GProp(k3, g3.value), k3);
    } else {
      assert two + [] == two;
    }
  }

  lemma MaterializedEntries(k1: string, i1: Item, k2: string, i2: Item, k3: string, i3: Option<Item>)
    ensures Materialize(IMap(Entries(k1, i1, k2, i2, k3, i3))) ==
      GObject(GProps(k1, Materialize(i1), k2, Materialize(i2), k3, if i3.Some? then Some(Materialize(i3.value)) else None))
  {
    var entries := Entries(k1, i1, k2, i2, k3, i3);
    var g3 := if i3.Some? then Some(Materialize(i3.value)) else None;
    var props := GProps(k1, Materialize(i1), k2, Materialize(i2), k3, g3);
    var g := Materialize(IMap(entries));
    assert g.props == props by {
      assert |g.props| == |entries| == |props|;
      forall i | 0 <= i < |entries| ensures g.props[i] == props[i] {
        assert g.props[i] == GProp(entries[i].key, Materialize(entries[i].value));
      }
    }
  }

  lemma EncodedChunk(c: StreamChunk)
    ensures c.value.Some? && Encode(c.value.value).Err? ==> Encode(ToJsValue(c)).Err?
    ensures !(c.value.Some? && Encode(c.value.value).Err?) ==>
      Encode(ToJsValue(c)) == Ok(IMap(Entries(TYPE_TAG, IStr(STREAM_CHUNK_TYPE), STREAM_CHUNK_DONE_KEY, IBool(c.done),
        STREAM_CHUNK_VALUE_KEY, if c.value.Some? then Some(Encode(c.value.value).value) else None)))
  {
    var tag, done := Prop(TYPE_TAG, Str(STREAM_CHUNK_TYPE)), Prop(STREAM_CHUNK_DONE_KEY, Bool(c.done));
    EncodeSnoc([], tag);
    EncodeSnoc([] + [tag], done);
    if c.value.Some? {
      var val := Prop(STREAM_CHUNK_VALUE_KEY, c.value.value);
      EncodeSnoc([] + [tag] + [done], val);
      assert ToJsValue(c) == Object([] + [tag] + [done] + [val]);
    } else {
      var entries := EncodeProps([] + [tag] + [done]).value;
      assert ToJsValue(c) == Object([] + [tag] + [done]);
      assert entries + [] == entries;
    }
  }

  // What `reviveStreamChunk` makes of an object that carries these three properties.
  lemma ChunkRevives(props: seq<GProp>, done: bool, value: Option<Guest>)
    requires GGet(props, TYPE_TAG) == Some(GString(STREAM_CHUNK_TYPE))
    requires GGet(props, STREAM_CHUNK_DONE_KEY) == Some(GBool(done)) && GGet(props, STREAM_CHUNK_VALUE_KEY) == value
    ensures ReviveStreamChunk(GObject(props)) ==
      if value.None? then Ok(Revived(done, None))
      else if Revive(value.value).Err? then Err(Revive(value.value).error)
      else Ok(Revived(done, Some(Revive(value.value).value)))
  {
  }

  // Anything else is handed on as it is.
  lemma OthersAreHandedOn(props: seq<GProp>, done: bool, value: Option<Guest>)
    requires GGet(props, TYPE_TAG) != Some(GString(STREAM_CHUNK_TYPE))
    requires GGet(props, STREAM_CHUNK_DONE_KEY) == Some(GBool(done)) && GGet(props, STREAM_CHUNK_VALUE_KEY) == value
    ensures ReviveStreamChunk(GObject(props)) == Ok(Revived(done, value))
  {
  }

  lemma EncodedChunkArrives(done: bool, i3: Option<Item>)
    ensures var entries := Entries(TYPE_TAG, IStr(STREAM_CHUNK_TYPE), STREAM_CHUNK_DONE_KEY, IBool(done), STREAM_CHUNK_VALUE_KEY, i3);
      ReviveStreamChunk(Materialize(IMap(entries))) ==
      if i3.None? then Ok(Revived(done, None))
      else if Revive(Materialize(i3.value)).Err? then Err(Revive(Materialize(i3.value)).error)
      else Ok(Revived(done, Some(Revive(Materialize(i3.value)).value)))
  {
    ChunkKeysDiffer();
    var g3 := if i3.Some? then Some(Materialize(i3.value)) else None;
    MaterializedEntries(TYPE_TAG, IStr(STREAM_CHUNK_TYPE), STREAM_CHUNK_DONE_KEY, IBool(done), STREAM_CHUNK_VALUE_KEY, i3);
    GetsEach(TYPE_TAG, GString(STREAM_CHUNK_TYPE), STREAM_CHUNK_DONE_KEY, GBool(done), STREAM_CHUNK_VALUE_KEY, g3);
    ChunkRevives(GProps(TYPE_TAG, GString(STREAM_CHUNK_TYPE), STREAM_CHUNK_DONE_KEY, GBool(done), STREAM_CHUNK_VALUE_KEY, g3), done, g3);
  }

  // A chunk arrives with its own done flag and the guest form of its value.
  lemma ChunkArrives(c: StreamChunk)
    ensures c.value.None? ==> Arrives(c) == Some(Ok(Revived(c.done, None)))
    ensures c.value.Some? ==>
      (match ViaWire(c.value.value)
       case None => Arrives(c) == None
       case Some(Err(e)) => Arrives(c) == Some(Err(e))
       case Some(Ok(g)) => Arrives(c) == Some(Ok(Revived(c.done, Some(g)))))
  {
    EncodedChunk(c);
    if c.value.None? {
      EncodedChunkArrives(c.done, None);
    } else if Encode(c.value.value).Ok? {
      EncodedChunkArrives(c.done, Some(Encode(c.value.value).value));
    }
  }

  // ---- the polyfill ----

  // What the n-th read of a fresh reader sees.
  function Expected(script: seq<Next>, n: nat): ReadResult {
    if n >= |script| then Done
    else
      match script[n]
      case Unconvertible => Rejected(FromHost(ConversionFailed))
      case Raises => Rejected(FromHost(StreamErrored))
      case Item(v) =>
        match ViaWire(v)
        case None => Rejected(NotSerializable)
        case Some(Err(_)) => Rejected(CannotRevive)
        case Some(Ok(g)) => Value(g)
  }

  class PenoReadableStream {
    const registry: PyStreamRegistry
    const id: nat
    var queue: seq<Guest>
    var closed: bool
    var errored: bool
    var pulling: bool

    // Between reads nothing is queued and no pull is running.
    predicate Settled()
      reads this
    {
      queue == [] && !pulling && !errored
    }

    constructor (registry: PyStreamRegistry, id: nat)
      ensures this.registry == registry && this.id == id && Settled() && !closed
    {
      this.registry, this.id := registry, id;
      queue, closed, errored, pulling := [], false, false, false;
    }

    method Enqueue(g: Guest)
      modifies `queue
      ensures queue == if closed then old(queue) else old(queue) + [g]
    {
      if closed {
        return;
      }
      queue := queue + [g];
    }

    // The underlying source's pull: one chunk from the host, closed or queued.
    method Pull() returns (failed: Option<Rejection>)
      requires registry.Valid() && !closed
      modifies `queue, `closed, registry
      ensures registry.Valid() && registry.issued == old(registry.issued)
      ensures id !in old(registry.entries) ==>
        failed == Some(FromHost(UnknownStream)) && !closed && queue == old(queue)
        && registry.Now() == old(registry.Now()) && registry.scripts == old(registry.scripts)
      ensures id in old(registry.entries) ==>
        var script := old(registry.scripts)[id];
        && registry.scripts == old(registry.scripts)[id := if script == [] then [] else script[1..]]
        && registry.Now() == (if script == [] then Closed(old(registry.Now()), id) else old(registry.Now()))
        && closed == (script == [])
        && queue == (if Expected(script, 0).Value? then old(queue) + [Expected(script, 0).g] else old(queue))
        && failed == if Expected(script, 0).Rejected? then Some(Expected(script, 0).why) else None
    {
      var chunk := registry.PullNext(id);
      if chunk.Err? {
        return Some(FromHost(chunk.error));
      }
      ChunkArrives(chunk.value);
      var arrived := Arrives(chunk.value);
      if arrived.None? {
        return Some(NotSerializable);
      }
      if arrived.value.Err? {
        return Some(CannotRevive);
      }
      failed := None;
      if arrived.value.value.done {
        closed := true;
        return;
      }
      Enqueue(if arrived.value.value.value.Some? then arrived.value.value.value.value else GUndefined);
    }

    // Nothing is pulled into a closed stream, or while another pull is running.
    method MaybePull() returns (failed: Option<Rejection>)
      requires registry.Valid()
      modifies `queue, `closed, `pulling, registry
      ensures registry.Valid() && registry.issued == old(registry.issued) && pulling == old(pulling)
      ensures old(closed) || old(pulling) ==> failed.None?
      ensures old(closed) || old(pulling) || id !in old(registry.entries) ==>
        && closed == old(closed) && queue == old(queue)
        && registry.Now() == old(registry.Now()) && registry.scripts == old(registry.scripts)
      ensures !old(closed) && !old(pulling) && id !in old(registry.entries) ==> failed == Some(FromHost(UnknownStream))
      ensures !old(closed) && !old(pulling) && id in old(registry.entries) ==>
        var script := old(registry.scripts)[id];
        && registry.scripts == old(registry.scripts)[id := if script == [] then [] else script[1..]]
        && registry.Now() == (if script == [] then Closed(old(registry.Now()), id) else old(registry.Now()))
        && closed == (script == [])
        && queue == (if Expected(script, 0).Value? then old(queue) + [Expected(script, 0).g] else old(queue))
        && failed == if Expected(script, 0).Rejected? then Some(Expected(script, 0).why) else None
    {
      if closed || pulling {
        return None;
      }
      pulling := true;
      failed := Pull();
      pulling := false;
    }

    // One read at a time: the next thing the iterator does, and done forever after its end.
    method Read() returns (r: ReadResult)
      requires registry.Valid() && Settled()
      modifies `queue, `closed, `pulling, registry
      ensures registry.Valid() && Settled() && registry.issued == old(registry.issued)
      ensures old(closed) ==> r == Done && closed && registry.Now() == old(registry.Now()) && registry.scripts == old(registry.scripts)
      ensures !old(closed) && id !in old(registry.entries) ==>
        r == Rejected(FromHost(UnknownStream)) && !closed && registry.Now() == old(registry.Now())
        && registry.scripts == old(registry.scripts)
      ensures !old(closed) && id in old(registry.entries) ==>
        var script := old(registry.scripts)[id];
        && r == Expected(script, 0) && closed == (script == [])
        && registry.scripts == old(registry.scripts)[id := if script == [] then [] else script[1..]]
        && registry.Now() == if script == [] then Closed(old(registry.Now()), id) else old(registry.Now())
    {
      if queue == [] && !closed {
        var failed := MaybePull();
        if failed.Some? {
          return Rejected(failed.value);
        }
      }
      if queue != [] {
        r := Value(queue[0]);
        queue := queue[1..];
        return;
      }
      if errored {
        return Rejected(StreamError);
      }
      r := Done;
    }

    // A reader that does nothing else sees exactly what the iterator does, in order and once
    // each, and then done for ever.
    method ReadMany(n: nat) returns (results: seq<ReadResult>)
      requires registry.Valid() && Settled() && !closed && id in registry.entries
      modifies `queue, `closed, `pulling, registry
      ensures registry.Valid() && Settled()
      ensures |results| == n
      ensures forall k :: 0 <= k < n ==> results[k] == Expected(old(registry.scripts)[id], k)
      ensures id in registry.entries <==> n <= |old(registry.scripts)[id]|
    {
      ghost var script := registry.scripts[id];
      results := [];
      var k := 0;
      while k < n
        invariant 0 <= k == |results| <= n && registry.Valid() && Settled()
        invariant forall j :: 0 <= j < k ==> results[j] == Expected(script, j)
        invariant closed <==> k > |script|
        invariant id in registry.entries <==> !closed
        invariant !closed ==> registry.scripts[id] == script[k..]
      {
        LaterExpected(script, k);
        var r := Read();
        results := results + [r];
        k := k + 1;
      }
    }

    // reader.cancel: the iterator is let go, and every later read is done.
    method Cancel()
      requires registry.Valid() && Settled()
      modifies `closed, registry
      ensures registry.Valid() && Settled() && closed
      ensures registry.Now() == Closed(old(registry.Now()), id)
    {
      closed := true;
      registry.Cancel(id);
    }
  }

  lemma LaterExpected(script: seq<Next>, k: nat)
    ensures k <= |script| ==> Expected(script[k..], 0) == Expected(script, k)
  {
  }
}
