// The tagged wire form of a JSValue: what Serialize emits and Deserialize's visitor rebuilds,
// over a carrier that preserves serde's items.
module WireCodec {
  import opened Wrappers
  import opened JsValue
  import Decimal

  datatype Entry = Entry(key: string, value: Item)

  datatype Item =
    | INone
    | IUnit
    | IBool(b: bool)
    | IInt(i: int)
    | IFloat(f: F64)
    | IStr(s: string)
    | IBytes(bytes: seq<byte>)
    | ISeq(items: seq<Item>)
    | IMap(entries: seq<Entry>)

  datatype WireError = FunctionValue | InvalidBigInt | InvalidStreamId

  // ---- serialize ----

  function Tagged(name: string): Item {
    IMap([Entry(TYPE_TAG, IStr(name))])
  }

  function TaggedWith(name: string, key: string, payload: Item): Item {
    IMap([Entry(TYPE_TAG, IStr(name)), Entry(key, payload)])
  }

  function Encode(v: JSValue): Result<Item, WireError>
    decreases v, 0
  {
    match v
    case Undefined => Ok(Tagged(UNDEFINED_TYPE))
    case Null => Ok(INone)
    case Bool(b) => Ok(IBool(b))
    case Int(i) => Ok(IInt(i))
    case BigInt(n) => Ok(TaggedWith(BIGINT_TYPE, BIGINT_VALUE_KEY, IStr(Decimal.ToDecimal(n))))
    case Float(f) => Ok(IFloat(f))
    case Str(s) => Ok(IStr(s))
    case Bytes(bytes) => Ok(IBytes(bytes))
    case Array(items) =>
      var encoded :- EncodeAll(items);
      Ok(ISeq(encoded))
    case Object(props) =>
      var encoded :- EncodeProps(props);
      Ok(IMap(encoded))
    case Date(ms) => Ok(TaggedWith(DATE_TYPE, DATE_EPOCH_KEY, IInt(ms)))
    case Set(items) =>
      var encoded :- EncodeAll(items);
      Ok(TaggedWith(SET_TYPE, SET_VALUES_KEY, ISeq(encoded)))
    case Function(_) => Err(FunctionValue)
    case JsStream(id) => Ok(TaggedWith(JS_STREAM_TYPE, STREAM_ID_KEY, IInt(id)))
    case PyStream(id) => Ok(TaggedWith(PY_STREAM_TYPE, STREAM_ID_KEY, IInt(id)))
  }

  function EncodeAll(items: seq<JSValue>): Result<seq<Item>, WireError>
    decreases items, 1
  {
    if items == [] then Ok([])
    else
      var front :- EncodeAll(items[..|items| - 1]);
      var last :- Encode(items[|items| - 1]);
      Ok(front + [last])
  }

  function EncodeProps(props: seq<Prop>): Result<seq<Entry>, WireError>
    decreases props, 1
  {
    if props == [] then Ok([])
    else
      var front :- EncodeProps(props[..|props| - 1]);
      var last :- Encode(props[|props| - 1].value);
      Ok(front + [Entry(props[|props| - 1].key, last)])
  }

  // ---- deserialize ----

  // What visit_map has collected: the untagged entries, and the tag if it was a string.
  datatype Collected = Collected(plain: seq<Prop>, tag: Option<string>)

  function Collect(c: Collected, key: string, value: JSValue): Collected {
    if key == TYPE_TAG && value.Str? then c.(tag := Some(value.s))
    else c.(plain := Insert(c.plain, key, value))
  }

  function StreamIdOf(v: JSValue): Option<u32> {
    match v
    case Int(i) => if i >= 0 then Some(i % 0x1_0000_0000) else None
    case Float(Finite(r)) =>
      // Rust's float-to-integer cast saturates.
      if r < 0.0 then None else if r >= 4294967295.0 then Some(0xFFFF_FFFF) else Some(r.Floor)
    case _ => None
  }

  function TruncateToI64(r: real): i64 {
    if r >= 9223372036854775807.0 then 0x7FFF_FFFF_FFFF_FFFF
    else if r <= -9223372036854775808.0 then -0x8000_0000_0000_0000
    else if r < 0.0 then -((-r).Floor)
    else r.Floor
  }

  datatype KnownTag = UndefinedTag | DateTag | SetTag | BigIntTag | JsStreamTag | PyStreamTag | OtherTag

  function TagOf(s: string): KnownTag {
    if s == UNDEFINED_TYPE then UndefinedTag
    else if s == DATE_TYPE then DateTag
    else if s == SET_TYPE then SetTag
    else if s == BIGINT_TYPE then BigIntTag
    else if s == JS_STREAM_TYPE then JsStreamTag
    else if s == PY_STREAM_TYPE then PyStreamTag
    else OtherTag
  }

  // The value a recognised tag stands for.  None: the entries stay an object.
  function FromTag(tag: KnownTag, plain: seq<Prop>): Option<Result<JSValue, WireError>> {
    match tag
    case UndefinedTag => Some(Ok(Undefined))
    case DateTag =>
      (match Get(plain, DATE_EPOCH_KEY)
       case Some(Int(ms)) => Some(Ok(Date(ms)))
       case Some(Float(Finite(r))) => Some(Ok(Date(TruncateToI64(r))))
       case _ => None)
    case SetTag =>
      (match Get(plain, SET_VALUES_KEY)
       case Some(Array(values)) => Some(Ok(Set(values)))
       case _ => None)
    case BigIntTag =>
      (match Get(plain, BIGINT_VALUE_KEY)
       case None => None
       case Some(Str(text)) =>
         var n := Decimal.Parse(text);
         Some(if n.Some? then Ok(BigInt(n.value)) else Err(InvalidBigInt))
       case Some(Int(i)) => Some(Ok(BigInt(i)))
       case Some(_) => Some(Err(InvalidBigInt)))
    case JsStreamTag => StreamFromTag(Get(plain, STREAM_ID_KEY), true)
    case PyStreamTag => StreamFromTag(Get(plain, STREAM_ID_KEY), false)
    case OtherTag => None
  }

  function StreamFromTag(entry: Option<JSValue>, js: bool): Option<Result<JSValue, WireError>> {
    match entry
    case None => None
    case Some(v) =>
      var id := StreamIdOf(v);
      Some(if id.None? then Err(InvalidStreamId) else Ok(if js then JsStream(id.value) else PyStream(id.value)))
  }

  function Finish(c: Collected): Result<JSValue, WireError> {
    if c.tag.None? then Ok(Object(c.plain))
    else
      var special := FromTag(TagOf(c.tag.value), c.plain);
      if special.Some? then special.value
      else Ok(Object(Insert(c.plain, TYPE_TAG, Str(c.tag.value))))
  }

  function Decode(item: Item): Result<JSValue, WireError>
    decreases item, 0
  {
    match item
    case INone => Ok(Null)
    case IUnit => Ok(Undefined)
    case IBool(b) => Ok(Bool(b))
    case IInt(i) => Ok(if InI64(i) then Int(i) else Float(Finite(i as real)))
    case IFloat(f) => Ok(Float(f))
    case IStr(s) => Ok(Str(s))
    case IBytes(bytes) => Ok(Bytes(bytes))
    case ISeq(items) =>
      var values :- DecodeAll(items);
      Ok(Array(values))
    case IMap(entries) =>
      var collected :- DecodeEntries(entries);
      Finish(collected)
  }

  function DecodeAll(items: seq<Item>): Result<seq<JSValue>, WireError>
    decreases items, 1
  {
    if items == [] then Ok([])
    else
      var front :- DecodeAll(items[..|items| - 1]);
      var last :- Decode(items[|items| - 1]);
      Ok(front + [last])
  }

  function DecodeEntries(entries: seq<Entry>): Result<Collected, WireError>
    decreases entries, 1
  {
    if entries == [] then Ok(Collected([], None))
    else
      var front :- DecodeEntries(entries[..|entries| - 1]);
      var last := entries[|entries| - 1];
      var value :- Decode(last.value);
      Ok(Collect(front, last.key, value))
  }

  // An error anywhere in a prefix is the error of the whole.
  lemma {:induction false} DecodeAllFails(items: seq<Item>, k: nat)
    requires k <= |items| && DecodeAll(items[..k]).Err?
    ensures DecodeAll(items) == DecodeAll(items[..k])
    decreases |items|
  {
    if k < |items| {
      var front := items[..|items| - 1];
      assert front[..k] == items[..k];
      DecodeAllFails(front, k);
    } else {
      assert items[..k] == items;
    }
  }

  lemma {:induction false} DecodeEntriesFails(entries: seq<Entry>, k: nat)
    requires k <= |entries| && DecodeEntries(entries[..k]).Err?
    ensures DecodeEntries(entries) == DecodeEntries(entries[..k])
    decreases |entries|
  {
    if k < |entries| {
      var front := entries[..|entries| - 1];
      assert front[..k] == entries[..k];
      DecodeEntriesFails(front, k);
    } else {
      assert entries[..k] == entries;
    }
  }

  // The visitor: visit_seq and visit_map fill their collection in a loop and stop at the
  // first error.
  method Deserialize(item: Item) returns (r: Result<JSValue, WireError>)
    ensures r == Decode(item)
    decreases item
  {
    match item
    case INone => r := Ok(Null);
    case IUnit => r := Ok(Undefined);
    case IBool(b) => r := Ok(Bool(b));
    case IInt(i) => r := Ok(if InI64(i) then Int(i) else Float(Finite(i as real)));
    case IFloat(f) => r := Ok(Float(f));
    case IStr(s) => r := Ok(Str(s));
    case IBytes(bytes) => r := Ok(Bytes(bytes));
    case ISeq(items) =>
      var vec: seq<JSValue> := [];
      var k := 0;
      while k < |items|
        invariant 0 <= k <= |items| && DecodeAll(items[..k]) == Ok(vec)
      {
        var elem := Deserialize(items[k]);
        assert items[..k + 1][..k] == items[..k];
        if elem.Err? {
          DecodeAllFails(items, k + 1);
          return Err(elem.error);
        }
        vec := vec + [elem.value];
        k := k + 1;
      }
      assert items[..k] == items;
      r := Ok(Array(vec));
    case IMap(entries) =>
      var collected := Collected([], None);
      var k := 0;
      while k < |entries|
        invariant 0 <= k <= |entries| && DecodeEntries(entries[..k]) == Ok(collected)
      {
        var value := Deserialize(entries[k].value);
        assert entries[..k + 1][..k] == entries[..k];
        if value.Err? {
          DecodeEntriesFails(entries, k + 1);
          return Err(value.error);
        }
        collected := Collect(collected, entries[k].key, value.value);
        k := k + 1;
      }
      assert entries[..k] == entries;
      r := Finish(collected);
  }
}
