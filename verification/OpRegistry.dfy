// Capability tokens for host operations: which number a guest passes reaches which handler,
// over every history of registering, exposing and revoking.
module OpRegistry {
  import opened Wrappers
  import opened JsValue

  type OpToken = nat

  const MAX_OP_TOKEN: nat := 0x1F_FFFF_FFFF_FFFF   // 2^53 - 1

  datatype Mode = Sync | Async

  datatype Op = Op(name: string, mode: Mode, handler: nat)

  // Every call made on the registry, whether or not it had an effect.
  datatype Event = Register(token: OpToken, op: Op) | Expose(token: OpToken) | Revoke(token: OpToken)

  datatype Table = Table(handlers: map<OpToken, Op>, exposed: set<OpToken>)

  function After(t: Table, e: Event): Table {
    match e
    case Register(token, op) => t.(handlers := t.handlers[token := op])
    case Expose(token) => if token in t.handlers then t.(exposed := t.exposed + {token}) else t
    case Revoke(token) => Table(t.handlers - {token}, t.exposed - {token})
  }

  function Replay(log: seq<Event>): Table {
    if log == [] then Table(map[], {}) else After(Replay(log[..|log| - 1]), log[|log| - 1])
  }

  predicate Live(token: OpToken) {
    1 <= token <= MAX_OP_TOKEN
  }

  // Tokens are drawn in range and are not in use when they are handed out.
  predicate Drawn(log: seq<Event>) {
    log == [] ||
    var front, last := log[..|log| - 1], log[|log| - 1];
    Drawn(front) && (last.Register? ==> Live(last.token) && last.token !in Replay(front).handlers)
  }

  function Lookup(t: Table, token: OpToken): Option<Op> {
    if token in t.exposed && token in t.handlers then Some(t.handlers[token]) else None
  }

  function TokenFromJs(raw: F64): Option<OpToken> {
    match raw
    case Finite(r) =>
      if r != r.Floor as real || r < 1.0 || r > MAX_OP_TOKEN as real then None else Some(r.Floor)
    case _ => None
  }

  // ---- what the history says ----

  predicate NotRevokedFrom(log: seq<Event>, token: OpToken, i: nat) {
    forall k :: i <= k < |log| ==> log[k] != Revoke(token)
  }

  // Event i registered the token, and nothing has revoked it since.
  predicate RegisteredAt(log: seq<Event>, token: OpToken, op: Op, i: nat) {
    i < |log| && log[i] == Register(token, op) && NotRevokedFrom(log, token, i)
  }

  // It was exposed after that registration.
  predicate ExposedAfter(log: seq<Event>, token: OpToken, i: nat) {
    exists j :: i < j < |log| && log[j] == Expose(token)
  }

  ghost predicate Grants(log: seq<Event>, token: OpToken, op: Op) {
    exists i :: RegisteredAt(log, token, op, i) && ExposedAfter(log, token, i)
  }

  // The number a guest passed is a token the history grants to this handler.
  ghost predicate Reaches(log: seq<Event>, raw: F64, op: Op) {
    exists token: OpToken :: raw == Finite(token as real) && Grants(log, token, op)
  }

  // Exposed tokens are registered, registered tokens are in range.
  lemma {:induction false} TablesAreSound(log: seq<Event>)
    requires Drawn(log)
    ensures Replay(log).exposed <= Replay(log).handlers.Keys
    ensures forall t :: t in Replay(log).handlers ==> Live(t)
    decreases |log|
  {
    if log != [] {
      TablesAreSound(log[..|log| - 1]);
    }
  }

  // The registration behind a token in the table, and whether it has been exposed since.
  lemma {:induction false} FindRegistration(log: seq<Event>, token: OpToken) returns (i: nat)
    requires Drawn(log) && token in Replay(log).handlers
    ensures RegisteredAt(log, token, Replay(log).handlers[token], i)
    ensures token in Replay(log).exposed <==> ExposedAfter(log, token, i)
    decreases |log|
  {
    var n := |log| - 1;
    var front, last := log[..n], log[n];
    if last.Register? && last.token == token {
      i := n;
      TablesAreSound(front);
    } else {
      i := FindRegistration(front, token);
      assert log == front + [last];
      RegistrationStays(front, last, token, Replay(front).handlers[token], i);
    }
  }

  lemma RegistrationStays(front: seq<Event>, last: Event, token: OpToken, op: Op, i: nat)
    requires RegisteredAt(front, token, op, i) && last != Revoke(token)
    ensures RegisteredAt(front + [last], token, op, i)
    ensures ExposedAfter(front + [last], token, i) <==> ExposedAfter(front, token, i) || last == Expose(token)
  {
    var log := front + [last];
    if ExposedAfter(front, token, i) {
      var j :| i < j < |front| && front[j] == Expose(token);
      assert log[j] == Expose(token);
    }
    if last == Expose(token) {
      assert log[|front|] == Expose(token);
    }
  }

  // A registration that the history has not revoked is in the table.
  lemma {:induction false} RegistrationHolds(log: seq<Event>, token: OpToken, op: Op, i: nat)
    requires Drawn(log) && RegisteredAt(log, token, op, i)
    ensures token in Replay(log).handlers && Replay(log).handlers[token] == op
    ensures ExposedAfter(log, token, i) ==> token in Replay(log).exposed
    decreases |log|
  {
    var n := |log| - 1;
    var front, last := log[..n], log[n];
    assert last != Revoke(token);
    if i < n {
      RegistrationHolds(front, token, op, i);
      if ExposedAfter(log, token, i) {
        var j :| i < j < |log| && log[j] == Expose(token);
        assert j < n ==> front[j] == Expose(token);
      }
    }
  }

  // A number passed by the guest reaches a handler exactly when it is that handler's live
  // token: registered, exposed after that, and not revoked since.
  lemma DispatchFollowsHistory(log: seq<Event>, raw: F64, op: Op)
    requires Drawn(log)
    ensures (TokenFromJs(raw).Some? && Lookup(Replay(log), TokenFromJs(raw).value) == Some(op)) <==> Reaches(log, raw, op)
  {
    TablesAreSound(log);
    var t := TokenFromJs(raw);
    if t.Some? && Lookup(Replay(log), t.value) == Some(op) {
      var i := FindRegistration(log, t.value);
      assert raw == Finite(t.value as real) && Grants(log, t.value, op);
    }
    if token: OpToken :| raw == Finite(token as real) && Grants(log, token, op) {
      var i :| RegisteredAt(log, token, op, i) && ExposedAfter(log, token, i);
      RegistrationHolds(log, token, op, i);
      assert Live(token) && t == Some(token);
    }
  }

  // A number reaches one handler at most.
  lemma ReachesOne(log: seq<Event>, raw: F64, a: Op, b: Op)
    requires Drawn(log) && Reaches(log, raw, a) && Reaches(log, raw, b)
    ensures a == b
  {
    DispatchFollowsHistory(log, raw, a);
    DispatchFollowsHistory(log, raw, b);
  }

  // ---- drawing tokens ----

  const TOKENS: nat := MAX_OP_TOKEN + 1

  // The first draw that masks to a nonzero unused token, and the draws after it.
  function Draw(draws: seq<nat>, used: set<OpToken>): Option<(OpToken, seq<nat>)> {
    if draws == [] then None
    else
      var token := draws[0] % TOKENS;
      if token != 0 && token !in used then Some((token, draws[1..])) else Draw(draws[1..], used)
  }

  predicate DrawMany(draws: seq<nat>, used: set<OpToken>, n: nat)
    decreases n
  {
    n == 0 ||
    match Draw(draws, used)
    case None => false
    case Some((token, rest)) => DrawMany(rest, used + {token}, n - 1)
  }

  // Drawing fails only if every draw masks to zero or to a token in use.
  lemma {:induction false} DrawFailsIffNoneUsable(draws: seq<nat>, used: set<OpToken>)
    ensures Draw(draws, used).None? <==> forall i :: 0 <= i < |draws| ==> draws[i] % TOKENS == 0 || draws[i] % TOKENS in used
    ensures Draw(draws, used).Some? ==>
      var (token, rest) := Draw(draws, used).value;
      Live(token) && token !in used && |rest| < |draws| && exists i :: 0 <= i < |draws| && draws[i] % TOKENS == token
    decreases |draws|
  {
    if draws != [] {
      assert forall i :: 0 <= i < |draws[1..]| ==> draws[1..][i] == draws[i + 1];
      DrawFailsIffNoneUsable(draws[1..], used);
    }
  }

  // Drawing past the tokens in use is drawing nonzero ones until one is not in use.
  lemma {:induction false} DrawSkips(draws: seq<nat>, used: set<OpToken>)
    ensures Draw(draws, used) ==
      match Draw(draws, {})
      case None => None
      case Some((token, rest)) => if token in used then Draw(rest, used) else Some((token, rest))
    decreases |draws|
  {
    if draws != [] {
      DrawSkips(draws[1..], used);
    }
  }

  // ---- the registry ----

  datatype Property = Callable(key: string, op: Op) | Plain(key: string, converts: bool) | BadKey

  datatype BindError = NoFreshToken | NotAString | Unconvertible | ScriptFailed

  class PythonOpRegistry {
    var handlers: map<OpToken, Op>
    var exposed: set<OpToken>
    ghost var log: seq<Event>

    ghost function State(): Table
      reads this
    {
      Table(handlers, exposed)
    }

    ghost predicate Valid()
      reads this
    {
      State() == Replay(log) && Drawn(log) && exposed <= handlers.Keys
    }

    constructor ()
      ensures Valid() && log == []
    {
      handlers, exposed, log := map[], {}, [];
    }

    // Zero is never a token.  The generator is an oracle: a list of raw 64-bit draws, and
    // zero stands for a list that has run dry.
    static method RandomOpToken(draws: seq<nat>) returns (token: nat, rest: seq<nat>)
      ensures Draw(draws, {}) == if token == 0 then None else Some((token, rest))
      ensures |rest| <= |draws| && (token != 0 ==> |rest| < |draws|)
    {
      token, rest := 0, draws;
      while token == 0 && rest != []
        invariant Draw(draws, {}) == if token == 0 then Draw(rest, {}) else Some((token, rest))
        invariant |rest| <= |draws| && (token != 0 ==> |rest| < |draws|)
        decreases |rest|
      {
        token := rest[0] % TOKENS;
        rest := rest[1..];
      }
    }

    method RegisterOp(op: Op, draws: seq<nat>) returns (id: Option<OpToken>, rest: seq<nat>)
      requires Valid()
      modifies this
      ensures Valid() && exposed == old(exposed)
      ensures Draw(draws, old(handlers).Keys) == if id.Some? then Some((id.value, rest)) else None
      ensures id.None? ==> handlers == old(handlers) && log == old(log)
      ensures id.Some? ==>
        && Live(id.value) && id.value !in old(handlers)
        && handlers == old(handlers)[id.value := op] && log == old(log) + [Register(id.value, op)]
    {
      TablesAreSound(log);
      DrawFailsIffNoneUsable(draws, handlers.Keys);
      var token;
      DrawSkips(draws, handlers.Keys);
      token, rest := RandomOpToken(draws);
      while token in handlers
        invariant unchanged(this)
        invariant Draw(draws, handlers.Keys) ==
          if token == 0 then None else if token in handlers then Draw(rest, handlers.Keys) else Some((token, rest))
        decreases |rest|, if token in handlers then 1 else 0
      {
        DrawSkips(rest, handlers.Keys);
        token, rest := RandomOpToken(rest);
      }
      if token == 0 {
        return None, rest;
      }
      handlers := handlers[token := op];
      log := log + [Register(token, op)];
      assert log[..|log| - 1] == old(log);
      id := Some(token);
    }

    method ExposeOp(id: OpToken) returns (ok: bool)
      requires Valid()
      modifies this
      ensures Valid() && handlers == old(handlers) && log == old(log) + [Expose(id)]
      ensures ok == (id in handlers)
      ensures exposed == if ok then old(exposed) + {id} else old(exposed)
    {
      log := log + [Expose(id)];
      assert log[..|log| - 1] == old(log);
      if id !in handlers {
        return false;
      }
      exposed := exposed + {id};
      ok := true;
    }

    method RevokeOp(id: OpToken) returns (ok: bool)
      requires Valid()
      modifies this
      ensures Valid() && log == old(log) + [Revoke(id)]
      ensures ok == (id in old(handlers)) && |old(handlers)| - |handlers| == if ok then 1 else 0
      ensures State() == After(old(State()), Revoke(id))
    {
      OneGone(handlers, id);
      log := log + [Revoke(id)];
      assert log[..|log| - 1] == old(log);
      exposed := exposed - {id};
      ok := id in handlers;
      handlers := handlers - {id};
    }

    // A guest call: malformed, unknown, never exposed and revoked numbers all get None.
    method LookupEntry(raw: F64) returns (op: Option<Op>)
      requires Valid()
      ensures forall o :: Reaches(log, raw, o) <==> op == Some(o)
    {
      forall o
        ensures (TokenFromJs(raw).Some? && Lookup(Replay(log), TokenFromJs(raw).value) == Some(o)) <==> Reaches(log, raw, o)
      {
        DispatchFollowsHistory(log, raw, o);
      }
      var token := TokenFromJs(raw);
      if token.None? || token.value !in exposed {
        return None;
      }
      op := if token.value in handlers then Some(handlers[token.value]) else None;
    }

    // bind_function: register, run the binding script, and expose only if it ran.
    method BindFunction(op: Op, draws: seq<nat>, scriptRuns: bool) returns (r: Result<OpToken, BindError>)
      requires Valid()
      modifies this
      ensures Valid()
      ensures r.Ok? <==> Draw(draws, old(handlers).Keys).Some? && scriptRuns
      ensures r.Err? ==> exposed == old(exposed)
      ensures Extends(old(handlers), handlers)
      ensures r.Ok? ==>
        && r.value == Draw(draws, old(handlers).Keys).value.0
        && r.value !in old(handlers) && exposed == old(exposed) + {r.value}
        && handlers == old(handlers)[r.value := op]
    {
      var id, rest := RegisterOp(op, draws);
      if id.None? {
        return Err(NoFreshToken);
      }
      if !scriptRuns {
        return Err(ScriptFailed);
      }
      var ok := ExposeOp(id.value);
      r := Ok(id.value);
    }

    // bind_object on the host's side: register every callable of a dict, in order.
    method RegisterProperties(properties: seq<Property>, draws: seq<nat>) returns (r: Result<seq<OpToken>, BindError>)
      requires Valid()
      modifies this
      ensures Valid() && exposed == old(exposed)
      ensures (r, handlers) == Registering(old(handlers), properties, draws, [])
    {
      var tokens: seq<OpToken> := [];
      var rest := draws;
      var i := 0;
      while i < |properties|
        invariant 0 <= i <= |properties| && Valid() && exposed == old(exposed)
        invariant Registering(old(handlers), properties, draws, []) == Registering(handlers, properties[i..], rest, tokens)
      {
        assert properties[i..][1..] == properties[i + 1..];
        match properties[i] {
          case Callable(_, op) =>
            var id;
            id, rest := RegisterOp(op, rest);
            if id.None? {
              return Err(NoFreshToken);
            }
            tokens := tokens + [id.value];
          case Plain(_, converts) =>
            if !converts {
              return Err(Unconvertible);
            }
          case BadKey =>
            return Err(NotAString);
        }
        i := i + 1;
      }
      r := Ok(tokens);
    }

    // ... and on the runtime thread: expose them all once the helper has installed them.
    method ExposeAll(tokens: seq<OpToken>)
      requires Valid() && forall t :: t in tokens ==> t in handlers
      modifies this
      ensures Valid() && handlers == old(handlers) && exposed == old(exposed) + TokenSet(tokens)
    {
      var i := 0;
      while i < |tokens|
        invariant 0 <= i <= |tokens| && Valid() && handlers == old(handlers)
        invariant exposed == old(exposed) + TokenSet(tokens[..i])
      {
        var ok := ExposeOp(tokens[i]);
        assert tokens[..i + 1][..i] == tokens[..i];
        i := i + 1;
      }
      assert tokens[..i] == tokens;
    }

    method BindObject(properties: seq<Property>, draws: seq<nat>, helperRuns: bool)
      returns (r: Result<seq<OpToken>, BindError>)
      requires Valid()
      modifies this
      ensures Valid() && Extends(old(handlers), handlers)
      ensures r.Ok? <==>
        DrawMany(draws, old(handlers).Keys, |Callables(properties)|) && Bindable(properties) && helperRuns
      ensures r.Err? ==> exposed == old(exposed)
      ensures r.Ok? ==>
        && exposed == old(exposed) + TokenSet(r.value)
        && LeadTo(handlers, r.value, Callables(properties))
        && forall t :: t in r.value ==> t !in old(handlers)
    {
      RegisteringIsExact(handlers, properties, draws, []);
      r := RegisterProperties(properties, draws);
      if r.Err? {
        return;
      }
      if !helperRuns {
        return Err(ScriptFailed);
      }
      ExposeAll(r.value);
    }
  }

  // What was registered before still is.
  ghost predicate Extends(before: map<OpToken, Op>, after: map<OpToken, Op>) {
    forall t :: t in before ==> t in after && after[t] == before[t]
  }

  // The tokens lead to these handlers, one by one.
  ghost predicate LeadTo(handlers: map<OpToken, Op>, tokens: seq<OpToken>, ops: seq<Op>) {
    |tokens| == |ops| && forall k :: 0 <= k < |tokens| ==> tokens[k] in handlers && handlers[tokens[k]] == ops[k]
  }

  function Registering(handlers: map<OpToken, Op>, properties: seq<Property>, draws: seq<nat>, tokens: seq<OpToken>):
    (Result<seq<OpToken>, BindError>, map<OpToken, Op>)
    decreases |properties|
  {
    if properties == [] then (Ok(tokens), handlers)
    else
      match properties[0]
      case BadKey => (Err(NotAString), handlers)
      case Plain(_, converts) =>
        if converts then Registering(handlers, properties[1..], draws, tokens) else (Err(Unconvertible), handlers)
      case Callable(_, op) =>
        match Draw(draws, handlers.Keys)
        case None => (Err(NoFreshToken), handlers)
        case Some((token, rest)) => Registering(handlers[token := op], properties[1..], rest, tokens + [token])
  }

  // Registering succeeds exactly when the draws suffice and every entry can be bound; then each
  // callable, in order, has a token of its own that was not in use.
  ghost predicate RegistersExactly(handlers: map<OpToken, Op>, properties: seq<Property>, draws: seq<nat>, tokens: seq<OpToken>) {
    var (r, after) := Registering(handlers, properties, draws, tokens);
    && Extends(handlers, after)
    && (r.Ok? <==> DrawMany(draws, handlers.Keys, |Callables(properties)|) && Bindable(properties))
    && (r.Ok? ==> tokens <= r.value && LeadTo(after, r.value[|tokens|..], Callables(properties)))
    && (r.Ok? ==> forall k :: |tokens| <= k < |r.value| ==> r.value[k] !in handlers)
  }

  lemma {:induction false} RegisteringIsExact(handlers: map<OpToken, Op>, properties: seq<Property>, draws: seq<nat>, tokens: seq<OpToken>)
    ensures RegistersExactly(handlers, properties, draws, tokens)
    decreases |properties|
  {
    if properties != [] {
      match properties[0] {
        case BadKey =>
        case Plain(_, converts) =>
          RegisteringIsExact(handlers, properties[1..], draws, tokens);
        case Callable(_, op) =>
          if Draw(draws, handlers.Keys).Some? {
            var (token, rest) := Draw(draws, handlers.Keys).value;
            RegisteringIsExact(handlers[token := op], properties[1..], rest, tokens + [token]);
            OneMoreRegistered(handlers, properties, draws, tokens, token, rest);
          }
      }
    }
  }

  lemma OneMoreRegistered(handlers: map<OpToken, Op>, properties: seq<Property>, draws: seq<nat>, tokens: seq<OpToken>,
                          token: OpToken, rest: seq<nat>)
    requires properties != [] && properties[0].Callable? && Draw(draws, handlers.Keys) == Some((token, rest))
    requires RegistersExactly(handlers[token := properties[0].op], properties[1..], rest, tokens + [token])
    ensures RegistersExactly(handlers, properties, draws, tokens)
  {
    DrawFailsIffNoneUsable(draws, handlers.Keys);
    var op := properties[0].op;
    assert handlers[token := op].Keys == handlers.Keys + {token};
    var (r, after) := Registering(handlers, properties, draws, tokens);
    if r.Ok? {
      assert r.value[|tokens|] == token && after[token] == op;
      assert r.value[|tokens|..] == [token] + r.value[|tokens| + 1..];
    }
  }

  lemma OneGone(handlers: map<OpToken, Op>, token: OpToken)
    ensures |handlers - {token}| == |handlers| - if token in handlers then 1 else 0
  {
    var rest := handlers - {token};
    assert rest.Keys == handlers.Keys - {token};
    assert |rest| == |rest.Keys| && |handlers| == |handlers.Keys|;
  }

  function TokenSet(tokens: seq<OpToken>): (s: set<OpToken>)
    ensures forall t :: t in s <==> t in tokens
  {
    if tokens == [] then {} else TokenSet(tokens[..|tokens| - 1]) + {tokens[|tokens| - 1]}
  }

  // Every key is a string and every plain value converts.
  predicate Bindable(properties: seq<Property>) {
    properties == [] ||
    (!properties[0].BadKey? && (properties[0].Plain? ==> properties[0].converts) && Bindable(properties[1..]))
  }

  function Callables(properties: seq<Property>): seq<Op> {
    if properties == [] then []
    else (if properties[0].Callable? then [properties[0].op] else []) + Callables(properties[1..])
  }
}
