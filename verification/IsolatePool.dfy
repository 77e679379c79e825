// The isolate pool: who owns which worker, and what each worker's channel carries.
module IsolatePool {
  import opened Wrappers

  type WorkerId = nat
  type HandleId = nat

  // An eval is labelled with the checkout that sent it.
  datatype PoolCommand = Eval(code: string, sender: HandleId) | Reclaim | Shutdown

  // ---- one worker's command stream ----

  // The checkouts whose dead contexts a worker's heap still holds.
  function Litter(s: seq<PoolCommand>): seq<HandleId> {
    if s == [] then []
    else
      match s[|s| - 1]
      case Eval(_, sender) => Litter(s[..|s| - 1]) + [sender]
      case Reclaim => []
      case Shutdown => Litter(s[..|s| - 1])
  }

  predicate Shut(s: seq<PoolCommand>) {
    exists i :: 0 <= i < |s| && s[i].Shutdown?
  }

  // (Eval* Reclaim)* Eval* Shutdown?
  predicate WellShaped(s: seq<PoolCommand>) {
    forall i :: 0 <= i < |s| - 1 ==> !s[i].Shutdown?
  }

  // Evals of different checkouts have a reclaim between them.
  predicate Separated(s: seq<PoolCommand>) {
    forall i, j :: 0 <= i < j < |s| && s[i].Eval? && s[j].Eval? && s[i].sender != s[j].sender ==>
      exists k :: i < k < j && s[k].Reclaim?
  }

  predicate AllBy(litter: seq<HandleId>, h: HandleId) {
    forall i :: 0 <= i < |litter| ==> litter[i] == h
  }

  lemma {:induction false} LitterRemains(s: seq<PoolCommand>, i: nat)
    requires i < |s| && s[i].Eval? && forall k :: i < k < |s| ==> !s[k].Reclaim?
    ensures s[i].sender in Litter(s)
    decreases |s|
  {
    if i < |s| - 1 {
      LitterRemains(s[..|s| - 1], i);
    }
  }

  // A checkout that finds only its own litter keeps the evals separated.
  lemma EvalKeepsSeparated(s: seq<PoolCommand>, code: string, h: HandleId)
    requires Separated(s) && AllBy(Litter(s), h)
    ensures Separated(s + [Eval(code, h)]) && AllBy(Litter(s + [Eval(code, h)]), h)
  {
    var t := s + [Eval(code, h)];
    assert t[..|s|] == s;
    forall i, j | 0 <= i < j < |t| && t[i].Eval? && t[j].Eval? && t[i].sender != t[j].sender
      ensures exists k :: i < k < j && t[k].Reclaim?
    {
      if j < |s| {
        var k :| i < k < j && s[k].Reclaim?;
        assert t[k].Reclaim?;
      } else if forall k :: i < k < |s| ==> !s[k].Reclaim? {
        LitterRemains(s, i);
      } else {
        var k :| i < k < |s| && s[k].Reclaim?;
        assert t[k].Reclaim?;
      }
    }
  }

  lemma OtherKeepsSeparated(s: seq<PoolCommand>, c: PoolCommand)
    requires Separated(s) && !c.Eval?
    ensures Separated(s + [c])
  {
    var t := s + [c];
    forall i, j | 0 <= i < j < |t| && t[i].Eval? && t[j].Eval? && t[i].sender != t[j].sender
      ensures exists k :: i < k < j && t[k].Reclaim?
    {
      var k :| i < k < j && s[k].Reclaim?;
      assert t[k].Reclaim?;
    }
  }

  // The worker thread: answers every eval in turn and stops at the first shutdown.
  method WorkerLoop(rx: seq<PoolCommand>) returns (answered: seq<string>, litter: seq<HandleId>)
    requires WellShaped(rx)
    ensures answered == Codes(rx) && litter == Litter(rx)
  {
    answered, litter := [], [];
    var i := 0;
    while i < |rx|
      invariant 0 <= i <= |rx| && answered == Codes(rx[..i]) && litter == Litter(rx[..i])
    {
      assert rx[..i + 1][..i] == rx[..i];
      match rx[i] {
        case Eval(code, sender) =>
          answered, litter := answered + [code], litter + [sender];
        case Reclaim =>
          litter := [];
        case Shutdown =>
          assert rx == rx[..i + 1];
          break;
      }
      i := i + 1;
    }
    assert i == |rx| ==> rx[..i] == rx;
  }

  function Codes(s: seq<PoolCommand>): seq<string> {
    if s == [] then []
    else
      var front, last := Codes(s[..|s| - 1]), s[|s| - 1];
      if last.Eval? then front + [last.code] else front
  }

  predicate StreamOk(s: seq<PoolCommand>) {
    WellShaped(s) && Separated(s)
  }

  lemma StopsCleanly(s: seq<PoolCommand>)
    requires !Shut(s) && StreamOk(s)
    ensures Shut(s + [Shutdown]) && StreamOk(s + [Shutdown])
  {
    assert (s + [Shutdown])[|s|].Shutdown?;
    OtherKeepsSeparated(s, Shutdown);
  }

  lemma ReclaimsCleanly(s: seq<PoolCommand>)
    requires !Shut(s) && StreamOk(s)
    ensures !Shut(s + [Reclaim]) && StreamOk(s + [Reclaim]) && Litter(s + [Reclaim]) == []
  {
    OtherKeepsSeparated(s, Reclaim);
  }

  lemma EvalsCleanly(s: seq<PoolCommand>, code: string, h: HandleId)
    requires !Shut(s) && StreamOk(s) && AllBy(Litter(s), h)
    ensures !Shut(s + [Eval(code, h)]) && StreamOk(s + [Eval(code, h)]) && AllBy(Litter(s + [Eval(code, h)]), h)
  {
    EvalKeepsSeparated(s, code, h);
  }

  // ---- the pool's state ----

  // Where a worker is: one place at a time.
  datatype Place = Idle | HeldBy(h: HandleId) | Gone

  datatype State = State(maxIdle: nat, idle: seq<WorkerId>, channels: seq<seq<PoolCommand>>, nextHandle: HandleId, place: seq<Place>)

  predicate Distinct(ws: seq<WorkerId>) {
    forall i, j :: 0 <= i < j < |ws| ==> ws[i] != ws[j]
  }

  // The queue holds exactly the idle workers, each once, and no more than it may.
  ghost predicate Queued(s: State) {
    && |s.idle| <= s.maxIdle && Distinct(s.idle)
    && (forall i :: 0 <= i < |s.idle| ==> s.idle[i] < |s.place| && s.place[s.idle[i]] == Idle)
    && (forall w :: 0 <= w < |s.place| && s.place[w] == Idle ==> w in s.idle)
  }

  // No two workers are held by one checkout.
  ghost predicate HeldOnce(s: State) {
    && (forall w :: 0 <= w < |s.place| && s.place[w].HeldBy? ==> s.place[w].h < s.nextHandle)
    && (forall v, w :: 0 <= v < w < |s.place| && s.place[v].HeldBy? && s.place[w].HeldBy? ==> s.place[v].h != s.place[w].h)
  }

  // A worker that waits has been cleaned, a held one carries only its holder's litter, and a
  // worker is gone exactly when it was told to stop.
  predicate WorkerOk(place: Place, stream: seq<PoolCommand>) {
    StreamOk(stream) &&
    match place
    case Idle => !Shut(stream) && Litter(stream) == []
    case HeldBy(h) => !Shut(stream) && AllBy(Litter(stream), h)
    case Gone => Shut(stream)
  }

  ghost predicate WorkersOk(s: State) {
    |s.place| == |s.channels| && forall w :: 0 <= w < |s.place| ==> WorkerOk(s.place[w], s.channels[w])
  }

  ghost predicate Inv(s: State) {
    Queued(s) && HeldOnce(s) && WorkersOk(s)
  }

  function Fresh(size: nat): State {
    var n := if size == 0 then 1 else size;
    State(n, seq(n, i => i), seq(n, i => []), 0, seq(n, i => Idle))
  }

  // The longest-idle worker, or a new one.
  function CheckedOut(s: State): State
    requires Queued(s)
  {
    if s.idle != [] then
      s.(idle := s.idle[1..], nextHandle := s.nextHandle + 1, place := s.place[s.idle[0] := HeldBy(s.nextHandle)])
    else
      s.(channels := s.channels + [[]], nextHandle := s.nextHandle + 1, place := s.place + [HeldBy(s.nextHandle)])
  }

  predicate Holds(s: State, h: HandleId, w: WorkerId) {
    w < |s.place| && s.place[w] == HeldBy(h)
  }

  function Sent(s: State, w: WorkerId, c: PoolCommand): State
    requires w < |s.channels|
  {
    s.(channels := s.channels[w := s.channels[w] + [c]])
  }

  function Released(s: State, w: WorkerId): State
    requires w < |s.channels| && w < |s.place|
  {
    if |s.idle| < s.maxIdle then
      Sent(s, w, Reclaim).(idle := s.idle + [w], place := s.place[w := Idle])
    else
      Sent(s, w, Shutdown).(place := s.place[w := Gone])
  }

  function Stopped(s: State): State
    requires s.idle != [] && s.idle[0] < |s.channels| && s.idle[0] < |s.place|
  {
    Sent(s, s.idle[0], Shutdown).(idle := s.idle[1..], place := s.place[s.idle[0] := Gone])
  }

  lemma FreshIsOk(size: nat)
    ensures Inv(Fresh(size))
  {
    var s := Fresh(size);
    forall w | 0 <= w < |s.place| ensures w in s.idle {
      assert s.idle[w] == w;
    }
  }

  lemma CheckedOutKeeps(s: State)
    requires Inv(s)
    ensures Inv(CheckedOut(s))
    ensures forall w: WorkerId :: Holds(CheckedOut(s), s.nextHandle, w) <==> w == if s.idle != [] then s.idle[0] else |s.channels|
    ensures forall g: HandleId, v: WorkerId :: g != s.nextHandle ==> (Holds(CheckedOut(s), g, v) <==> Holds(s, g, v))
  {
    var t := CheckedOut(s);
    if s.idle != [] {
      assert forall i :: 0 <= i < |t.idle| ==> t.idle[i] == s.idle[i + 1];
    }
    forall w | 0 <= w < |t.place| && t.place[w] == Idle ensures w in t.idle {
      assert w < |s.place| && s.place[w] == Idle;
    }
    forall w | 0 <= w < |t.place| ensures WorkerOk(t.place[w], t.channels[w]) {
      assert w < |s.place| ==> WorkerOk(s.place[w], s.channels[w]);
    }
  }

  lemma EvalKeeps(s: State, h: HandleId, w: WorkerId, code: string)
    requires Inv(s) && Holds(s, h, w)
    ensures Inv(Sent(s, w, Eval(code, h)))
  {
    assert WorkerOk(s.place[w], s.channels[w]);
    EvalsCleanly(s.channels[w], code, h);
  }

  lemma ReleasedKeeps(s: State, h: HandleId, w: WorkerId)
    requires Inv(s) && Holds(s, h, w)
    ensures Inv(Released(s, w))
    ensures forall g: HandleId, v: WorkerId :: g != h ==> (Holds(Released(s, w), g, v) <==> Holds(s, g, v))
    ensures forall v: WorkerId :: !Holds(Released(s, w), h, v)
  {
    assert WorkerOk(s.place[w], s.channels[w]);
    if |s.idle| < s.maxIdle {
      ReclaimsCleanly(s.channels[w]);
      RequeuedIsQueued(s, w);
    } else {
      StopsCleanly(s.channels[w]);
    }
  }

  // While there is room a released worker waits last in the queue, told to reclaim; when there is
  // none it is told to stop.  Nobody else's channel changes.
  lemma ReleasedGoesWhereThereIsRoom(s: State, h: HandleId, w: WorkerId)
    requires Inv(s) && Holds(s, h, w)
    ensures var t := Released(s, w);
      && (|s.idle| < s.maxIdle ==> t.idle == s.idle + [w] && t.channels[w] == s.channels[w] + [Reclaim] && !Shut(t.channels[w]))
      && (|s.idle| == s.maxIdle ==> t.idle == s.idle && t.channels[w] == s.channels[w] + [Shutdown] && Shut(t.channels[w]))
      && |t.channels| == |s.channels| && forall v :: 0 <= v < |s.channels| && v != w ==> t.channels[v] == s.channels[v]
  {
    assert WorkerOk(s.place[w], s.channels[w]);
    if |s.idle| < s.maxIdle {
      ReclaimsCleanly(s.channels[w]);
    } else {
      StopsCleanly(s.channels[w]);
    }
  }

  lemma RequeuedIsQueued(s: State, w: WorkerId)
    requires Inv(s) && w < |s.place| && s.place[w] != Idle && |s.idle| < s.maxIdle
    ensures Queued(Released(s, w))
  {
    var t := Released(s, w);
    forall v | 0 <= v < |t.place| && t.place[v] == Idle ensures v in t.idle {
      assert v != w ==> s.place[v] == Idle;
    }
  }

  lemma StoppedKeeps(s: State)
    requires Inv(s) && s.idle != []
    ensures Inv(Stopped(s))
    ensures forall g: HandleId, v: WorkerId :: Holds(Stopped(s), g, v) <==> Holds(s, g, v)
  {
    var t, w := Stopped(s), s.idle[0];
    assert WorkerOk(s.place[w], s.channels[w]);
    StopsCleanly(s.channels[w]);
    assert forall i :: 0 <= i < |t.idle| ==> t.idle[i] == s.idle[i + 1];
    forall v | 0 <= v < |t.place| && t.place[v] == Idle ensures v in t.idle {
      assert s.place[v] == Idle;
    }
  }

  // Every idle worker is told to stop.
  ghost function AllStopped(s: State): (t: State)
    requires Inv(s)
    ensures Inv(t) && t.idle == []
    ensures forall g: HandleId, v: WorkerId :: Holds(t, g, v) <==> Holds(s, g, v)
    decreases |s.idle|
  {
    if s.idle == [] then s
    else
      StoppedKeeps(s);
      AllStopped(Stopped(s))
  }

  // ---- any sequence of calls ----

  // A worker is named with its checkout; dropping a checkout releases it, dropping the pool
  // closes it.
  datatype Call =
    | CheckOut
    | SendEval(h: HandleId, w: WorkerId, code: string)
    | Release(h: HandleId, w: WorkerId)
    | Close

  ghost predicate Allowed(s: State, c: Call) {
    match c
    case CheckOut => true
    case SendEval(h, w, _) => Holds(s, h, w)
    case Release(h, w) => Holds(s, h, w)
    case Close => true
  }

  ghost function Called(s: State, c: Call): (t: State)
    requires Inv(s) && Allowed(s, c)
    ensures Inv(t)
  {
    match c
    case CheckOut => CheckedOutKeeps(s); CheckedOut(s)
    case SendEval(h, w, code) => EvalKeeps(s, h, w, code); Sent(s, w, Eval(code, h))
    case Release(h, w) => ReleasedKeeps(s, h, w); Released(s, w)
    case Close => AllStopped(s)
  }

  ghost predicate Legal(s: State, calls: seq<Call>)
    requires Inv(s)
    decreases |calls|
  {
    calls == [] || (Allowed(s, calls[0]) && Legal(Called(s, calls[0]), calls[1..]))
  }

  ghost function Exec(s: State, calls: seq<Call>): (t: State)
    requires Inv(s) && Legal(s, calls)
    ensures Inv(t)
    decreases |calls|
  {
    if calls == [] then s else Exec(Called(s, calls[0]), calls[1..])
  }

  // Every worker ever spawned is waiting, checked out or stopped, and only one of these; the
  // commands it has been sent say what its channel should.
  lemma EveryWorkerIsAccountedFor(s: State, w: WorkerId)
    requires Inv(s) && w < |s.channels|
    ensures WellShaped(s.channels[w]) && Separated(s.channels[w])
    ensures w in s.idle ==> !Shut(s.channels[w]) && Litter(s.channels[w]) == [] && forall h: HandleId :: !Holds(s, h, w)
    ensures Shut(s.channels[w]) ==> w !in s.idle && forall h: HandleId :: !Holds(s, h, w)
    ensures w !in s.idle && !Shut(s.channels[w]) ==> exists h: HandleId :: Holds(s, h, w)
    ensures forall h: HandleId, v: WorkerId :: Holds(s, h, w) && Holds(s, h, v) ==> v == w
  {
    assert WorkerOk(s.place[w], s.channels[w]);
    if w !in s.idle && !Shut(s.channels[w]) {
      assert Holds(s, s.place[w].h, w);
    }
  }

  ghost function FreshPool(size: nat): (s: State)
    ensures Inv(s)
  {
    FreshIsOk(size);
    Fresh(size)
  }

  // So after any sequence of checkouts, evals, releases and closes of a fresh pool.
  lemma PoolIsConserved(size: nat, calls: seq<Call>, w: WorkerId)
    requires Legal(FreshPool(size), calls) && w < |Exec(FreshPool(size), calls).channels|
    ensures var s := Exec(FreshPool(size), calls); var stream := s.channels[w];
      && |s.idle| <= s.maxIdle && Distinct(s.idle)
      && WellShaped(stream) && Separated(stream)
      && (w in s.idle ==> !Shut(stream) && Litter(stream) == [] && forall h: HandleId :: !Holds(s, h, w))
      && (Shut(stream) ==> w !in s.idle && forall h: HandleId :: !Holds(s, h, w))
      && (w !in s.idle && !Shut(stream) ==> exists h: HandleId :: Holds(s, h, w))
      && (forall h: HandleId, v: WorkerId :: Holds(s, h, w) && Holds(s, h, v) ==> v == w)
  {
    EveryWorkerIsAccountedFor(Exec(FreshPool(size), calls), w);
  }

  // Closing empties the queue but leaves its room: an isolate released afterwards is queued
  // again instead of being shut down.
  lemma ReleasedAfterCloseIsQueued(s: State, h: HandleId, w: WorkerId)
    requires Inv(s) && s.idle == [] && s.maxIdle > 0 && Holds(s, h, w)
    ensures Released(s, w).idle == [w] && !Shut(Released(s, w).channels[w])
  {
    assert WorkerOk(s.place[w], s.channels[w]);
    ReclaimsCleanly(s.channels[w]);
  }

  // ---- the pool itself ----

  class Pool {
    const maxIdle: nat
    var idle: seq<WorkerId>
    var channels: seq<seq<PoolCommand>>   // one per worker ever spawned
    var nextHandle: HandleId
    ghost var place: seq<Place>

    ghost function Now(): State
      reads this
    {
      State(maxIdle, idle, channels, nextHandle, place)
    }

    constructor (size: nat)
      ensures Now() == Fresh(size) && Inv(Now())
    {
      var n := if size == 0 then 1 else size;
      maxIdle, nextHandle := n, 0;
      idle, channels, place := seq(n, i => i), seq(n, i => []), seq(n, i => Idle);
      FreshIsOk(size);
    }

    method Send(w: WorkerId, c: PoolCommand)
      requires w < |channels|
      modifies `channels
      ensures Now() == Sent(old(Now()), w, c)
    {
      channels := channels[w := channels[w] + [c]];
    }

    // It never waits for a worker to come back.
    method Checkout() returns (isolate: PooledIsolate)
      requires Inv(Now())
      modifies this
      ensures Inv(Now()) && Now() == CheckedOut(old(Now()))
      ensures fresh(isolate) && isolate.Valid() && isolate.pool == this
      ensures isolate.id == old(nextHandle) && isolate.worker.Some?
      ensures forall g: HandleId, v: WorkerId :: g != isolate.id ==> (Holds(Now(), g, v) <==> Holds(old(Now()), g, v))
    {
      CheckedOutKeeps(Now());
      var h := nextHandle;
      var w;
      if idle != [] {
        w := idle[0];
        idle := idle[1..];
        place := place[w := HeldBy(h)];
      } else {
        w := |channels|;
        channels := channels + [[]];
        place := place + [HeldBy(h)];
      }
      nextHandle := nextHandle + 1;
      isolate := new PooledIsolate(this, h, w);
    }

    // Shuts down the idle workers only: what is checked out stays checked out.
    method Close()
      requires Inv(Now())
      modifies `idle, `channels, `place
      ensures Inv(Now()) && Now() == AllStopped(old(Now()))
    {
      while idle != []
        invariant Inv(Now()) && AllStopped(Now()) == AllStopped(old(Now()))
        decreases |idle|
      {
        StoppedKeeps(Now());
        var w := idle[0];
        idle := idle[1..];
        Send(w, Shutdown);
        place := place[w := Gone];
      }
    }
  }

  class PooledIsolate {
    const pool: Pool
    const id: HandleId
    var worker: Option<WorkerId>

    // This checkout holds its worker, and nothing once released.
    ghost predicate Valid()
      reads this, pool
    {
      && Inv(pool.Now()) && id < pool.nextHandle
      && forall w: WorkerId :: Holds(pool.Now(), id, w) <==> worker == Some(w)
    }

    constructor (pool: Pool, id: HandleId, w: WorkerId)
      ensures this.pool == pool && this.id == id && worker == Some(w)
    {
      this.pool, this.id, worker := pool, id, Some(w);
    }

    // Refused once the isolate has been released.
    method SendEval(code: string) returns (sent: bool)
      requires Valid()
      modifies pool`channels
      ensures Valid() && sent == worker.Some?
      ensures pool.Now() == if sent then Sent(old(pool.Now()), worker.value, Eval(code, id)) else old(pool.Now())
    {
      if worker.None? {
        return false;
      }
      assert Holds(pool.Now(), id, worker.value);
      EvalKeeps(pool.Now(), id, worker.value, code);
      pool.Send(worker.value, Eval(code, id));
      sent := true;
    }

    // Back into the queue after a reclaim, or shut down if the queue is full.  Idempotent, and
    // no other checkout notices.
    method Release()
      requires Valid()
      modifies this, pool
      ensures Valid() && worker.None?
      ensures pool.Now() == if old(worker).Some? then Released(old(pool.Now()), old(worker).value) else old(pool.Now())
      ensures forall g: HandleId, v: WorkerId :: g != id ==> (Holds(pool.Now(), g, v) <==> Holds(old(pool.Now()), g, v))
    {
      if worker.Some? {
        var w := worker.value;
        assert Holds(pool.Now(), id, w);
        ReleasedKeeps(pool.Now(), id, w);
        worker := None;
        if |pool.idle| < pool.maxIdle {
          pool.Send(w, Reclaim);
          pool.idle := pool.idle + [w];
          pool.place := pool.place[w := Idle];
        } else {
          pool.Send(w, Shutdown);
          pool.place := pool.place[w := Gone];
        }
      }
    }
  }
}
