// A bridge of budgeted tools on one runtime: every way a guest can reach a tool is charged,
// and none is left once the bridge is detached.
module ToolBridge {
  import opened Wrappers
  import opened JsValue
  import opened OpRegistry

  datatype Tool = Tool(name: string, isAsync: bool)

  datatype Spending = Proceed | Refuse | BudgetError

  datatype Outcome =
    | UnknownOp
    | WrongMode
    | ArgsRefused
    | NoEventLoop
    | Foreign(op: Op)          // some other host function was called
    | ToolRan(tool: nat)
    | NothingRan               // silently refused
    | OutOfBudget
    | Awaiting                 // a coroutine was made; it spends when it runs

  // What a guest, and the event loop for it, can do.
  datatype GuestStep =
    | CallSync(raw: F64, argsFit: bool)
    | CallAsync(raw: F64, argsFit: bool, hasLoop: bool)
    | Resume(coroutine: nat)

  // ---- what a guest's steps come to, read off the history of capabilities ----

  datatype GuestState = GuestState(calls: nat, coroutines: seq<nat>, invoked: seq<nat>)

  ghost predicate GrantsTool(log: seq<Event>, tools: nat, raw: F64, mode: Mode, tool: nat) {
    exists op :: Reaches(log, raw, op) && op.mode == mode && op.handler == tool && tool < tools
  }

  // The tool of that mode which this number reaches.
  ghost function GrantedTool(log: seq<Event>, tools: nat, raw: F64, mode: Mode): (tool: Option<nat>)
    ensures tool.Some? ==> GrantsTool(log, tools, raw, mode, tool.value)
    ensures tool.None? ==> forall t :: !GrantsTool(log, tools, raw, mode, t)
  {
    if t :| GrantsTool(log, tools, raw, mode, t) then Some(t) else None
  }

  // A tool runs, charged, while calls are left.
  function Invoked(s: GuestState, maxCalls: Option<nat>, tool: nat): GuestState {
    if maxCalls.Some? && s.calls >= maxCalls.value then s
    else s.(calls := s.calls + 1, invoked := s.invoked + [tool])
  }

  ghost function Stepped(log: seq<Event>, tools: nat, maxCalls: Option<nat>, s: GuestState, step: GuestStep): GuestState {
    match step
    case CallSync(raw, argsFit) =>
      var tool := GrantedTool(log, tools, raw, Sync);
      if tool.Some? && argsFit then Invoked(s, maxCalls, tool.value) else s
    case CallAsync(raw, argsFit, hasLoop) =>
      var tool := GrantedTool(log, tools, raw, Async);
      if tool.Some? && argsFit && hasLoop then s.(coroutines := s.coroutines + [tool.value]) else s
    case Resume(i) =>
      if i >= |s.coroutines| then s
      else Invoked(s.(coroutines := s.coroutines[..i] + s.coroutines[i + 1..]), maxCalls, s.coroutines[i])
  }

  ghost function GuestRun(log: seq<Event>, tools: nat, maxCalls: Option<nat>, s: GuestState, steps: seq<GuestStep>): GuestState {
    if steps == [] then s
    else Stepped(log, tools, maxCalls, GuestRun(log, tools, maxCalls, s, steps[..|steps| - 1]), steps[|steps| - 1])
  }

  // While calls are left, an async tool that the guest may call and that is awaited does run.
  lemma AwaitedToolRuns(log: seq<Event>, tools: nat, maxCalls: Option<nat>, s: GuestState, raw: F64, tool: nat)
    requires Drawn(log) && GrantsTool(log, tools, raw, Async, tool) && (maxCalls.Some? ==> s.calls < maxCalls.value)
    ensures var called := Stepped(log, tools, maxCalls, s, CallAsync(raw, true, true));
      Stepped(log, tools, maxCalls, called, Resume(|s.coroutines|)) == GuestState(s.calls + 1, s.coroutines, s.invoked + [tool])
  {
    OneToolGranted(log, tools, raw, Async, tool);
    var waiting := s.coroutines + [tool];
    assert waiting[..|s.coroutines|] + waiting[|s.coroutines| + 1..] == s.coroutines;
  }

  lemma OneToolGranted(log: seq<Event>, tools: nat, raw: F64, mode: Mode, tool: nat)
    requires Drawn(log) && GrantsTool(log, tools, raw, mode, tool)
    ensures GrantedTool(log, tools, raw, mode) == Some(tool)
  {
    var op :| Reaches(log, raw, op) && op.mode == mode && op.handler == tool && tool < tools;
    var t := GrantedTool(log, tools, raw, mode).value;
    var other :| Reaches(log, raw, other) && other.mode == mode && other.handler == t && t < tools;
    ReachesOne(log, raw, op, other);
  }

  class ToolBridge {
    const registry: PythonOpRegistry
    const tools: seq<Tool>
    const maxCalls: Option<nat>
    const raises: bool
    const namespaced: bool
    var calls: nat
    var tokens: seq<OpToken>
    var coroutines: seq<nat>     // async tools called and not yet run
    ghost var invoked: seq<nat>  // tools really run since the last reset

    ghost function State(): GuestState
      reads this
    {
      GuestState(calls, coroutines, invoked)
    }

    // Handlers are numbered: the first ones are this bridge's shims.
    predicate IsShim(op: Op) {
      op.handler < |tools|
    }

    function ShimFor(tool: nat): Op
      requires tool < |tools|
    {
      Op(tools[tool].name, if tools[tool].isAsync then Async else Sync, tool)
    }

    // The tokens of one attach, in the order of the tools: exposed, and each leads to its shim.
    ghost predicate Installed(added: seq<OpToken>)
      reads registry
    {
      |added| <= |tools| && forall k :: 0 <= k < |added| ==>
        added[k] in registry.exposed && added[k] in registry.handlers && registry.handlers[added[k]] == ShimFor(k)
    }

    ghost predicate Charged()
      reads this
    {
      |invoked| == calls && (maxCalls.Some? ==> calls <= maxCalls.value)
    }

    // The bridge holds a token for every way into its shims.
    ghost predicate Owns()
      reads this, registry
    {
      forall t :: t in registry.exposed && t in registry.handlers && IsShim(registry.handlers[t]) ==> t in tokens
    }

    ghost predicate Valid()
      reads this, registry
    {
      registry.Valid() && Charged() && Owns() && forall i :: 0 <= i < |coroutines| ==> coroutines[i] < |tools|
    }

    constructor (registry: PythonOpRegistry, tools: seq<Tool>, maxCalls: Option<nat>, raises: bool, namespaced: bool)
      requires registry.Valid() && forall t :: t in registry.handlers ==> registry.handlers[t].handler >= |tools|
      ensures Valid() && this.registry == registry && this.tools == tools && this.maxCalls == maxCalls
      ensures calls == 0 && invoked == [] && tokens == []
    {
      this.registry, this.tools, this.maxCalls := registry, tools, maxCalls;
      this.raises, this.namespaced := raises, namespaced;
      calls, tokens, coroutines, invoked := 0, [], [], [];
    }

    function CallsRemaining(): Option<nat>
      reads this
    {
      match maxCalls
      case None => None
      case Some(max) => Some(if calls <= max then max - calls else 0)
    }

    method ResetBudget()
      requires Valid()
      modifies this
      ensures Valid() && calls == 0 && invoked == [] && tokens == old(tokens) && coroutines == old(coroutines)
    {
      calls, invoked := 0, [];
    }

    method Spend() returns (r: Spending)
      modifies `calls
      ensures r.Proceed? <==> (maxCalls.None? || old(calls) < maxCalls.value)
      ensures calls == old(calls) + (if r.Proceed? then 1 else 0)
      ensures !r.Proceed? ==> (r.BudgetError? <==> raises)
    {
      if maxCalls.Some? && calls >= maxCalls.value {
        return if raises then BudgetError else Refuse;
      }
      calls := calls + 1;
      r := Proceed;
    }

    // The body of a shim: nothing runs that was not charged.
    method RunShim(tool: nat) returns (o: Outcome)
      requires Valid() && tool < |tools|
      modifies `calls, `invoked
      ensures Valid() && State() == Invoked(old(State()), maxCalls, tool)
      ensures o == if old(CallsRemaining()) != Some(0) then ToolRan(tool) else if raises then OutOfBudget else NothingRan
      ensures invoked == if o.ToolRan? then old(invoked) + [tool] else old(invoked)
    {
      var spent := Spend();
      match spent {
        case Proceed =>
          invoked := invoked + [tool];
          o := ToolRan(tool);
        case Refuse => o := NothingRan;
        case BudgetError => o := OutOfBudget;
      }
    }

    // What a dispatch of this mode comes to before any tool is reached.
    ghost predicate Refused(raw: F64, mode: Mode, argsFit: bool, o: Outcome)
      reads this, registry
    {
      && ((forall op :: !Reaches(registry.log, raw, op)) ==> o == UnknownOp)
      && (forall op :: Reaches(registry.log, raw, op) ==>
            && (op.mode != mode ==> o == WrongMode)
            && (op.mode == mode && !argsFit ==> o == ArgsRefused)
            && (op.mode == mode && argsFit && !IsShim(op) ==> o == Foreign(op) || o == NoEventLoop))
    }

    // Any number the guest passes.  The token table decides, then the mode, then the arguments.
    method DispatchSync(raw: F64, argsFit: bool) returns (o: Outcome)
      requires Valid()
      modifies `calls, `invoked
      ensures Valid() && State() == Stepped(registry.log, |tools|, maxCalls, old(State()), CallSync(raw, argsFit))
      ensures Refused(raw, Sync, argsFit, o) && o != NoEventLoop
      ensures tokens == [] ==> invoked == old(invoked)
      ensures invoked == if o.ToolRan? then old(invoked) + [o.tool] else old(invoked)
      ensures o.ToolRan? ==>
        o.tool < |tools| && exists op :: Reaches(registry.log, raw, op) && op.handler == o.tool && op.mode.Sync?
      ensures forall op :: Reaches(registry.log, raw, op) ==>
        (op.mode.Sync? && argsFit && IsShim(op) && old(CallsRemaining()) != Some(0) ==> o == ToolRan(op.handler))
    {
      var op := registry.LookupEntry(raw);
      if op.None? {
        return UnknownOp;
      }
      OnlyReached(raw, op.value, Sync);
      if op.value.mode != Sync {
        return WrongMode;
      }
      if !argsFit {
        return ArgsRefused;
      }
      if !IsShim(op.value) {
        return Foreign(op.value);
      }
      OwnedByTokens(raw, op.value);
      o := RunShim(op.value.handler);
    }

    // Calling an async shim only makes a coroutine; without an event loop it is dropped.
    method DispatchAsync(raw: F64, argsFit: bool, hasLoop: bool) returns (o: Outcome)
      requires Valid()
      modifies `coroutines
      ensures Valid() && State() == Stepped(registry.log, |tools|, maxCalls, old(State()), CallAsync(raw, argsFit, hasLoop))
      ensures Refused(raw, Async, argsFit, o) && (o == NoEventLoop ==> !hasLoop)
      ensures !hasLoop && argsFit ==> forall op :: Reaches(registry.log, raw, op) && op.mode.Async? ==> o == NoEventLoop
      ensures tokens == [] ==> coroutines == old(coroutines)
      ensures o.Awaiting? ==> |coroutines| == |old(coroutines)| + 1 && old(coroutines) <= coroutines
      ensures !o.Awaiting? ==> coroutines == old(coroutines)
      ensures forall op :: Reaches(registry.log, raw, op) ==>
        (op.mode.Async? && argsFit && hasLoop && IsShim(op) ==> o.Awaiting? && coroutines == old(coroutines) + [op.handler])
    {
      var op := registry.LookupEntry(raw);
      if op.None? {
        return UnknownOp;
      }
      OnlyReached(raw, op.value, Async);
      if op.value.mode != Async {
        return WrongMode;
      }
      if !argsFit {
        return ArgsRefused;
      }
      if !hasLoop {
        return NoEventLoop;
      }
      if !IsShim(op.value) {
        return Foreign(op.value);
      }
      OwnedByTokens(raw, op.value);
      coroutines := coroutines + [op.value.handler];
      o := Awaiting;
    }

    // The tool behind the one handler that a number reaches.
    lemma OnlyReached(raw: F64, op: Op, mode: Mode)
      requires registry.Valid() && Reaches(registry.log, raw, op)
      ensures GrantedTool(registry.log, |tools|, raw, mode) == if op.mode == mode && IsShim(op) then Some(op.handler) else None
      ensures forall other :: Reaches(registry.log, raw, other) ==> other == op
    {
      forall other | Reaches(registry.log, raw, other) ensures other == op {
        ReachesOne(registry.log, raw, op, other);
      }
      if op.mode == mode && IsShim(op) {
        assert GrantsTool(registry.log, |tools|, raw, mode, op.handler);
        OneToolGranted(registry.log, |tools|, raw, mode, op.handler);
      }
    }

    lemma OwnedByTokens(raw: F64, op: Op)
      requires Valid() && IsShim(op)
      requires Reaches(registry.log, raw, op)
      ensures tokens != []
    {
      DispatchFollowsHistory(registry.log, raw, op);
      var token := TokenFromJs(raw).value;
      assert token in registry.exposed && registry.handlers[token] == op;
    }

    // An awaited coroutine runs its tool, or is refused for want of calls, and is gone.
    method RunCoroutine(i: nat) returns (o: Outcome)
      requires Valid()
      modifies `calls, `invoked, `coroutines
      ensures Valid() && State() == Stepped(registry.log, |tools|, maxCalls, old(State()), Resume(i))
      ensures i < |old(coroutines)| && old(CallsRemaining()) != Some(0) ==>
        o == ToolRan(old(coroutines)[i]) && calls == old(calls) + 1
      ensures i < |old(coroutines)| && old(CallsRemaining()) == Some(0) ==> o == if raises then OutOfBudget else NothingRan
      ensures i < |old(coroutines)| ==> coroutines == old(coroutines)[..i] + old(coroutines)[i + 1..]
      ensures i >= |old(coroutines)| ==> o.NothingRan? && coroutines == old(coroutines)
      ensures invoked == if o.ToolRan? then old(invoked) + [old(coroutines)[i]] else old(invoked)
    {
      if i >= |coroutines| {
        return NothingRan;
      }
      var tool := coroutines[i];
      coroutines := coroutines[..i] + coroutines[i + 1..];
      o := RunShim(tool);
    }

    // attach: bind every tool's shim, in the global scope one by one or in a namespace together.
    // Each bind has its own random source and its own script, the first ones for a namespace.
    method Attach(draws: seq<seq<nat>>, installs: seq<bool>) returns (r: Result<nat, BindError>)
      requires Valid()
      modifies registry, `tokens
      ensures Valid() && calls == old(calls) && invoked == old(invoked) && coroutines == old(coroutines)
      ensures r.Ok? <==>
        if namespaced then DrawMany(DrawsFor(draws, 0), old(registry.handlers).Keys, |tools|) && Installs(installs, 0)
        else BindsAll(old(registry.handlers).Keys, draws, installs, 0, |tools|)
      ensures old(tokens) <= tokens
      ensures r.Ok? ==> |tokens| == |old(tokens)| + |tools| && Installed(tokens[|old(tokens)|..])
    {
      if namespaced {
        r := AttachNamespace(DrawsFor(draws, 0), Installs(installs, 0));
      } else {
        r := AttachEach(draws, installs);
      }
    }

    method AttachNamespace(draws: seq<nat>, runs: bool) returns (r: Result<nat, BindError>)
      requires Valid()
      modifies registry, `tokens
      ensures Valid() && calls == old(calls) && invoked == old(invoked) && coroutines == old(coroutines)
      ensures r.Ok? <==> DrawMany(draws, old(registry.handlers).Keys, |tools|) && runs
      ensures old(tokens) <= tokens
      ensures r.Ok? ==> |tokens| == |old(tokens)| + |tools| && Installed(tokens[|old(tokens)|..])
    {
      var properties := seq(|tools|, k requires 0 <= k < |tools| => Callable(tools[k].name, ShimFor(k)));
      AllCallable(properties);
      var bound := registry.BindObject(properties, draws, runs);
      if bound.Err? {
        return Err(bound.error);
      }
      tokens := tokens + bound.value;
      r := Ok(|tools|);
    }

    // The next tool's shim, after those that this attach has bound already.
    method AttachOne(k: nat, ghost first: nat, draws: seq<nat>, runs: bool) returns (r: Result<OpToken, BindError>)
      requires Valid() && k < |tools| && first <= |tokens| && |tokens| == first + k && Installed(tokens[first..])
      modifies registry, `tokens
      ensures Valid() && State() == old(State())
      ensures r.Ok? <==> Draw(draws, old(registry.handlers).Keys).Some? && runs
      ensures r.Err? ==> tokens == old(tokens)
      ensures r.Ok? ==>
        && r.value == Draw(draws, old(registry.handlers).Keys).value.0
        && registry.handlers.Keys == old(registry.handlers).Keys + {r.value}
        && tokens == old(tokens) + [r.value] && Installed(tokens[first..])
    {
      r := registry.BindFunction(ShimFor(k), draws, runs);
      if r.Ok? {
        tokens := tokens + [r.value];
        assert tokens[first..] == old(tokens[first..]) + [r.value];
      }
    }

    method AttachEach(draws: seq<seq<nat>>, installs: seq<bool>) returns (r: Result<nat, BindError>)
      requires Valid()
      modifies registry, `tokens
      ensures Valid() && calls == old(calls) && invoked == old(invoked) && coroutines == old(coroutines)
      ensures r.Ok? <==> BindsAll(old(registry.handlers).Keys, draws, installs, 0, |tools|)
      ensures old(tokens) <= tokens
      ensures r.Ok? ==> |tokens| == |old(tokens)| + |tools| && Installed(tokens[|old(tokens)|..])
    {
      ghost var binds := BindsAll(registry.handlers.Keys, draws, installs, 0, |tools|);
      var k := 0;
      while k < |tools|
        invariant 0 <= k <= |tools| && Valid() && State() == old(State())
        invariant BindsAll(registry.handlers.Keys, draws, installs, k, |tools|) == binds
        invariant old(tokens) <= tokens && |tokens| == |old(tokens)| + k && Installed(tokens[|old(tokens)|..])
      {
        ghost var used := registry.handlers.Keys;
        var bound := AttachOne(k, |old(tokens)|, DrawsFor(draws, k), Installs(installs, k));
        if bound.Err? {
          return Err(bound.error);
        }
        k := k + 1;
      }
      r := Ok(|tools|);
    }

    // detach: revoke every token held.  Nothing exposed leads to a shim any more.
    method Detach() returns (revoked: nat)
      requires Valid()
      modifies registry, `tokens
      ensures Valid() && tokens == [] && calls == old(calls) && invoked == old(invoked)
      ensures registry.exposed == old(registry.exposed) - TokenSet(old(tokens))
      ensures registry.handlers == old(registry.handlers) - TokenSet(old(tokens))
      ensures revoked == |old(registry.handlers)| - |registry.handlers|
    {
      WithoutRemovesAll(registry.State(), tokens);
      revoked := RevokeEach(registry, tokens);
      forall t | t in registry.exposed && t in registry.handlers ensures !IsShim(registry.handlers[t]) {
        assert t in old(registry.exposed) && t in old(registry.handlers) && t !in tokens;
      }
      tokens := [];
    }

    method TakeStep(step: GuestStep)
      requires Valid()
      modifies `calls, `invoked, `coroutines
      ensures Valid() && State() == Stepped(registry.log, |tools|, maxCalls, old(State()), step)
      ensures old(invoked) <= invoked
      ensures tokens == [] ==> |invoked| + |coroutines| <= |old(invoked)| + |old(coroutines)|
    {
      match step {
        case CallSync(raw, argsFit) =>
          var o := DispatchSync(raw, argsFit);
        case CallAsync(raw, argsFit, hasLoop) =>
          var o := DispatchAsync(raw, argsFit, hasLoop);
        case Resume(i) =>
          var o := RunCoroutine(i);
      }
    }

    // Any run of guest calls and event-loop turns: exactly the tools the history grants run, each
    // charged, within the budget; a detached bridge with nothing in flight runs nothing.
    method RunGuest(steps: seq<GuestStep>)
      requires Valid()
      modifies `calls, `invoked, `coroutines
      ensures Valid() && State() == GuestRun(registry.log, |tools|, maxCalls, old(State()), steps)
      ensures old(invoked) <= invoked && |invoked| - |old(invoked)| == calls - old(calls)
      ensures tokens == [] && old(coroutines) == [] ==> invoked == old(invoked)
      ensures tokens == [] ==> |invoked| <= |old(invoked)| + |old(coroutines)|
    {
      var i := 0;
      while i < |steps|
        invariant 0 <= i <= |steps| && Valid()
        invariant State() == GuestRun(registry.log, |tools|, maxCalls, old(State()), steps[..i])
        invariant old(invoked) <= invoked
        invariant tokens == [] ==> |invoked| + |coroutines| <= |old(invoked)| + |old(coroutines)|
      {
        assert steps[..i + 1][..i] == steps[..i];
        TakeStep(steps[i]);
        i := i + 1;
      }
      assert steps[..i] == steps;
    }

    // Whatever else the host binds or revokes on the same runtime.
    method BindOther(op: Op, draws: seq<nat>, scriptRuns: bool) returns (r: Result<OpToken, BindError>)
      requires Valid() && !IsShim(op)
      modifies registry
      ensures Valid()
    {
      r := registry.BindFunction(op, draws, scriptRuns);
    }

    method RevokeOther(token: OpToken) returns (ok: bool)
      requires Valid()
      modifies registry
      ensures Valid() && registry.exposed == old(registry.exposed) - {token}
    {
      ok := registry.RevokeOp(token);
    }
  }

  // The random source and the outcome of the k-th bind; without one it fails.
  function DrawsFor(draws: seq<seq<nat>>, k: nat): seq<nat> {
    if k < |draws| then draws[k] else []
  }

  predicate Installs(installs: seq<bool>, k: nat) {
    k < |installs| && installs[k]
  }

  // One bind after the other: each finds a token that is not in use, and its script runs.
  predicate BindsAll(used: set<OpToken>, draws: seq<seq<nat>>, installs: seq<bool>, k: nat, n: nat)
    decreases n - k
  {
    k >= n ||
    match Draw(DrawsFor(draws, k), used)
    case None => false
    case Some((token, _)) => Installs(installs, k) && BindsAll(used + {token}, draws, installs, k + 1, n)
  }

  // Revoking tokens one after the other.
  function Without(t: Table, tokens: seq<OpToken>): Table {
    if tokens == [] then t else After(Without(t, tokens[..|tokens| - 1]), Revoke(tokens[|tokens| - 1]))
  }

  lemma {:induction false} WithoutRemovesAll(t: Table, tokens: seq<OpToken>)
    ensures Without(t, tokens) == Table(t.handlers - TokenSet(tokens), t.exposed - TokenSet(tokens))
    decreases |tokens|
  {
    if tokens != [] {
      WithoutRemovesAll(t, tokens[..|tokens| - 1]);
    }
  }

  // How many of the tokens were still registered.
  method RevokeEach(registry: PythonOpRegistry, tokens: seq<OpToken>) returns (revoked: nat)
    requires registry.Valid()
    modifies registry
    ensures registry.Valid()
    ensures registry.State() == Without(old(registry.State()), tokens)
    ensures revoked == |old(registry.handlers)| - |registry.handlers|
  {
    revoked := 0;
    var i := 0;
    ghost var before := registry.State();
    while i < |tokens|
      invariant 0 <= i <= |tokens| && registry.Valid()
      invariant registry.State() == Without(before, tokens[..i])
      invariant revoked == |before.handlers| - |registry.handlers|
    {
      assert tokens[..i + 1][..i] == tokens[..i];
      var ok := registry.RevokeOp(tokens[i]);
      revoked := revoked + if ok then 1 else 0;
      i := i + 1;
    }
    assert tokens[..i] == tokens;
  }

  lemma {:induction false} AllCallable(properties: seq<Property>)
    requires forall k :: 0 <= k < |properties| ==> properties[k].Callable?
    ensures |Callables(properties)| == |properties| && Bindable(properties)
    ensures forall k :: 0 <= k < |properties| ==> Callables(properties)[k] == properties[k].op
    decreases |properties|
  {
    if properties != [] {
      AllCallable(properties[1..]);
    }
  }
}
