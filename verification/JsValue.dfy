// Host-side JavaScript values, and the depth and byte meter both conversion directions share.
module JsValue {
  import opened Wrappers

  type i64 = x: int | -0x8000_0000_0000_0000 <= x < 0x8000_0000_0000_0000 witness 0
  type u32 = x: int | 0 <= x < 0x1_0000_0000 witness 0
  type byte = x: int | 0 <= x < 256 witness 0

  predicate InI64(n: int) {
    -0x8000_0000_0000_0000 <= n < 0x8000_0000_0000_0000
  }

  // Doubles, with finite ones as reals: rounding and the sign of zero are not modelled.
  datatype F64 = NaN | Infinite(negative: bool) | Finite(value: real)

  datatype Prop = Prop(key: string, value: JSValue)

  datatype JSValue =
    | Undefined
    | Null
    | Bool(b: bool)
    | Int(i: i64)
    | BigInt(n: int)
    | Float(f: F64)
    | Str(s: string)
    | Bytes(bytes: seq<byte>)
    | Array(items: seq<JSValue>)
    | Object(props: seq<Prop>)      // insertion order; keys are distinct, see Keyed
    | Date(ms: i64)
    | Set(items: seq<JSValue>)
    | Function(id: u32)
    | JsStream(id: u32)
    | PyStream(id: u32)

  const TYPE_TAG := "__peno_type"
  const UNDEFINED_TYPE := "Undefined"
  const DATE_TYPE := "Date"
  const DATE_EPOCH_KEY := "epoch_ms"
  const SET_TYPE := "Set"
  const SET_VALUES_KEY := "values"
  const BIGINT_TYPE := "BigInt"
  const BIGINT_VALUE_KEY := "value"
  const JS_STREAM_TYPE := "JsStream"
  const PY_STREAM_TYPE := "PyStream"
  const STREAM_ID_KEY := "id"

  // ---- insertion-ordered maps ----

  predicate DistinctKeys(props: seq<Prop>) {
    forall i, j :: 0 <= i < j < |props| ==> props[i].key != props[j].key
  }

  predicate HasKey(props: seq<Prop>, key: string) {
    exists i :: 0 <= i < |props| && props[i].key == key
  }

  function IndexOf(props: seq<Prop>, key: string): (r: Option<nat>)
    ensures r.Some? ==> r.value < |props| && props[r.value].key == key
    ensures r.None? <==> !HasKey(props, key)
  {
    if props == [] then None
    else if props[|props| - 1].key == key then Some(|props| - 1)
    else
      var front := props[..|props| - 1];
      assert HasKey(props, key) <==> HasKey(front, key) by {
        assert props == front + [props[|props| - 1]];
      }
      IndexOf(front, key)
  }

  function Get(props: seq<Prop>, key: string): (r: Option<JSValue>)
    ensures r.None? <==> !HasKey(props, key)
  {
    var i := IndexOf(props, key);
    if i.Some? then Some(props[i.value].value) else None
  }

  function Insert(props: seq<Prop>, key: string, value: JSValue): (r: seq<Prop>)
    ensures DistinctKeys(props) ==> DistinctKeys(r)
  {
    var i := IndexOf(props, key);
    if i.Some? then props[i.value := Prop(key, value)] else props + [Prop(key, value)]
  }

  lemma GetAt(props: seq<Prop>, i: nat)
    requires DistinctKeys(props) && i < |props|
    ensures Get(props, props[i].key) == Some(props[i].value)
  {
    assert HasKey(props, props[i].key);
  }

  // Inserting sets one key, in its place or at the end, and leaves the others as they were.
  lemma {:induction false} InsertSets(props: seq<Prop>, key: string, value: JSValue)
    requires DistinctKeys(props)
    ensures Get(Insert(props, key, value), key) == Some(value)
    ensures forall k :: k != key ==> Get(Insert(props, key, value), k) == Get(props, k)
    ensures |Insert(props, key, value)| == |props| + if HasKey(props, key) then 0 else 1
    ensures forall i :: 0 <= i < |props| ==> Insert(props, key, value)[i].key == props[i].key
  {
    var after, i := Insert(props, key, value), IndexOf(props, key);
    forall k | k != key ensures Get(after, k) == Get(props, k) {
      forall j | 0 <= j < |props| && props[j].key == k ensures props[j] in after {
        assert after[j] == props[j];
      }
      forall j | 0 <= j < |after| && after[j].key == k ensures after[j] in props {
        assert j < |props| && props[j] == after[j];
      }
      SameLookup(props, after, k);
    }
    GetAt(after, if i.Some? then i.value else |props|);
  }

  // Looking up a key asks only for the entries under it.
  lemma SameLookup(a: seq<Prop>, b: seq<Prop>, key: string)
    requires DistinctKeys(a) && DistinctKeys(b)
    requires forall i :: 0 <= i < |a| && a[i].key == key ==> a[i] in b
    requires forall i :: 0 <= i < |b| && b[i].key == key ==> b[i] in a
    ensures Get(a, key) == Get(b, key)
  {
    if HasKey(a, key) {
      var i := IndexOf(a, key).value;
      var j :| 0 <= j < |b| && b[j] == a[i];
      GetAt(a, i);
      GetAt(b, j);
    }
  }

  // Every object inside v has distinct keys: what an IndexMap guarantees by construction.
  predicate Keyed(v: JSValue) {
    match v
    case Array(items) => forall i :: 0 <= i < |items| ==> Keyed(items[i])
    case Set(items) => forall i :: 0 <= i < |items| ==> Keyed(items[i])
    case Object(props) => DistinctKeys(props) && forall i :: 0 <= i < |props| ==> Keyed(props[i].value)
    case _ => true
  }

  // ---- the meter ----

  const USIZE_MAX: nat := 0xFFFF_FFFF_FFFF_FFFF

  function Sat(n: nat): nat {
    if n <= USIZE_MAX then n else USIZE_MAX
  }

  datatype Meter = Meter(maxDepth: nat, maxBytes: nat, depth: nat, bytes: nat)

  datatype LimitError = DepthExceeded | BytesExceeded

  function Entered(m: Meter): (Meter, bool) {
    var m1 := m.(depth := Sat(m.depth + 1));
    (m1, m1.depth <= m1.maxDepth)
  }

  function Exited(m: Meter): Meter {
    m.(depth := if m.depth == 0 then 0 else m.depth - 1)
  }

  function Charged(m: Meter, bytes: nat): (Meter, bool) {
    var m1 := m.(bytes := Sat(m.bytes + bytes));
    (m1, m1.bytes <= m1.maxBytes)
  }

  // Limits and counters are machine words; nothing has been refused yet.
  predicate MeterOk(m: Meter) {
    m.maxDepth <= USIZE_MAX && m.maxBytes <= USIZE_MAX && m.depth <= m.maxDepth && m.bytes <= m.maxBytes
  }

  class LimitTracker {
    const maxDepth: nat
    const maxBytes: nat
    var currentDepth: nat
    var currentBytes: nat

    constructor (maxDepth: nat, maxBytes: nat)
      ensures State() == Meter(maxDepth, maxBytes, 0, 0)
    {
      this.maxDepth, this.maxBytes := maxDepth, maxBytes;
      currentDepth, currentBytes := 0, 0;
    }

    ghost function State(): Meter
      reads this
    {
      Meter(maxDepth, maxBytes, currentDepth, currentBytes)
    }

    method Enter() returns (ok: bool)
      modifies this
      ensures (State(), ok) == Entered(old(State()))
    {
      currentDepth := Sat(currentDepth + 1);
      ok := currentDepth <= maxDepth;
    }

    method Exit()
      modifies this
      ensures State() == Exited(old(State()))
    {
      if currentDepth > 0 {
        currentDepth := currentDepth - 1;
      }
    }

    method AddBytes(bytes: nat) returns (ok: bool)
      modifies this
      ensures (State(), ok) == Charged(old(State()), bytes)
    {
      currentBytes := Sat(currentBytes + bytes);
      ok := currentBytes <= maxBytes;
    }
  }

  // ---- sizes ----

  function Utf8Width(c: char): nat {
    if c as int < 0x80 then 1 else if c as int < 0x800 then 2 else if c as int < 0x10000 then 3 else 4
  }

  function Utf8Len(s: string): nat {
    if s == [] then 0 else Utf8Width(s[0]) + Utf8Len(s[1..])
  }

  // Bytes of the shortest little-endian magnitude; zero takes one byte.
  function MagnitudeLen(n: nat): nat {
    if n < 256 then 1 else 1 + MagnitudeLen(n / 256)
  }

  function Pow256(k: nat): nat {
    if k == 0 then 1 else 256 * Pow256(k - 1)
  }

  function Abs(n: int): nat {
    if n < 0 then -n else n
  }
}
