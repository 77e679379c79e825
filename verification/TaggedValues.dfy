// What a tagged object stands for, on the wire and on its way to Python: every payload a guest
// can send, not only the ones the encoder writes.
module TaggedValues {
  import opened Wrappers
  import opened JsValue
  import opened WireCodec
  import opened WireRoundTrip
  import opened PythonValues
  import opened Budget
  import Decimal

  // n is r with its fraction dropped.
  predicate Truncates(r: real, n: int) {
    && (0.0 <= r ==> n as real <= r < n as real + 1.0)
    && (r <= 0.0 ==> n as real - 1.0 < r <= n as real)
  }

  // A float cast to an integer type: truncated, and held at the ends of the range.
  predicate CastTo(r: real, low: int, high: int, n: int) {
    if r >= high as real then n == high
    else if r <= low as real then n == low
    else Truncates(r, n)
  }

  const I64_MIN: int := -0x8000_0000_0000_0000
  const I64_MAX: int := 0x7FFF_FFFF_FFFF_FFFF
  const U32_MAX: int := 0xFFFF_FFFF

  lemma CastsToI64(r: real)
    ensures CastTo(r, I64_MIN, I64_MAX, TruncateToI64(r))
  {
  }

  lemma CastsToU32(r: real)
    ensures StreamIdOf(Float(Finite(r))).Some? <==> r >= 0.0
    ensures r >= 0.0 ==> CastTo(r, 0, U32_MAX, StreamIdOf(Float(Finite(r))).value)
  {
  }

  // At most one integer is the cast of a float, and an integer in range is its own cast.
  lemma CastIsUnique(r: real, low: int, high: int, m: int, n: int)
    requires CastTo(r, low, high, m) && CastTo(r, low, high, n)
    ensures m == n
  {
  }

  lemma CastOfInteger(k: int, low: int, high: int, n: int)
    requires low <= k <= high && CastTo(k as real, low, high, n)
    ensures n == k
  {
  }

  // ---- the wire ----

  // What a tag string makes of an object with these properties; None leaves it an object.
  ghost predicate StandsFor(tag: string, props: seq<Prop>, r: Option<Result<JSValue, WireError>>) {
    if tag == UNDEFINED_TYPE then r == Some(Ok(Undefined))
    else if tag == DATE_TYPE then
      match Get(props, DATE_EPOCH_KEY)
      case Some(Int(ms)) => r == Some(Ok(Date(ms)))
      case Some(Float(Finite(x))) => r.Some? && r.value.Ok? && r.value.value.Date? && CastTo(x, I64_MIN, I64_MAX, r.value.value.ms)
      case _ => r == None
    else if tag == SET_TYPE then
      match Get(props, SET_VALUES_KEY)
      case Some(Array(values)) => r == Some(Ok(Set(values)))
      case _ => r == None
    else if tag == BIGINT_TYPE then
      match Get(props, BIGINT_VALUE_KEY)
      case None => r == None
      case Some(Int(i)) => r == Some(Ok(BigInt(i)))
      case Some(Str(text)) => Reads(text, r)
      case Some(_) => r == Some(Err(InvalidBigInt))
    else if tag == JS_STREAM_TYPE then Streams(Get(props, STREAM_ID_KEY), true, r)
    else if tag == PY_STREAM_TYPE then Streams(Get(props, STREAM_ID_KEY), false, r)
    else r == None
  }

  ghost predicate Reads(text: string, r: Option<Result<JSValue, WireError>>) {
    || (r == Some(Err(InvalidBigInt)) && forall n :: !Decimal.Denotes(text, n))
    || exists n :: Decimal.Denotes(text, n) && r == Some(Ok(BigInt(n)))
  }

  // Integers lose all but their low 32 bits; floats are cast.
  ghost predicate Streams(payload: Option<JSValue>, js: bool, r: Option<Result<JSValue, WireError>>) {
    match payload
    case None => r == None
    case Some(Int(i)) => if i >= 0 then r == Some(Ok(StreamOf(js, i % 0x1_0000_0000))) else r == Some(Err(InvalidStreamId))
    case Some(Float(Finite(x))) =>
      if x >= 0.0 then exists id: u32 :: CastTo(x, 0, U32_MAX, id) && r == Some(Ok(StreamOf(js, id)))
      else r == Some(Err(InvalidStreamId))
    case Some(_) => r == Some(Err(InvalidStreamId))
  }

  function StreamOf(js: bool, id: u32): JSValue {
    if js then JsStream(id) else PyStream(id)
  }

  lemma ReadsWhatItDenotes(text: string)
    ensures var n := Decimal.Parse(text); Reads(text, Some(if n.Some? then Ok(BigInt(n.value)) else Err(InvalidBigInt)))
  {
    forall n ensures Decimal.Parse(text) == Some(n) <==> Decimal.Denotes(text, n) {
      Decimal.ParsesExactlyNumerals(text, n);
    }
  }

  lemma StreamTagStands(payload: Option<JSValue>, js: bool)
    ensures Streams(payload, js, StreamFromTag(payload, js))
  {
    if payload.Some? && payload.value.Float? && payload.value.f.Finite? {
      CastsToU32(payload.value.f.value);
    }
  }

  lemma TagStands(tag: string, props: seq<Prop>)
    ensures StandsFor(tag, props, FromTag(TagOf(tag), props))
  {
    if tag == DATE_TYPE {
      match Get(props, DATE_EPOCH_KEY)
      case Some(Float(Finite(x))) => CastsToI64(x);
      case _ =>
    } else if tag == BIGINT_TYPE {
      match Get(props, BIGINT_VALUE_KEY)
      case Some(Str(text)) => ReadsWhatItDenotes(text);
      case _ =>
    } else {
      StreamTagStands(Get(props, STREAM_ID_KEY), true);
      StreamTagStands(Get(props, STREAM_ID_KEY), false);
    }
  }

  // Only the payloads' own entries are looked up.
  lemma SamePayloads(tag: string, a: seq<Prop>, b: seq<Prop>, r: Option<Result<JSValue, WireError>>)
    requires Get(a, DATE_EPOCH_KEY) == Get(b, DATE_EPOCH_KEY) && Get(a, SET_VALUES_KEY) == Get(b, SET_VALUES_KEY)
    requires Get(a, BIGINT_VALUE_KEY) == Get(b, BIGINT_VALUE_KEY) && Get(a, STREAM_ID_KEY) == Get(b, STREAM_ID_KEY)
    ensures StandsFor(tag, a, r) <==> StandsFor(tag, b, r)
  {
  }

  lemma LookedUpWithoutTag(d: seq<Prop>, t: nat, tag: string, r: Option<Result<JSValue, WireError>>)
    requires DistinctKeys(d) && t < |d| && d[t].key == TYPE_TAG
    ensures StandsFor(tag, Without(d, t), r) <==> StandsFor(tag, d, r)
  {
    KnownTags();
    WithoutKeeps(d, t, DATE_EPOCH_KEY);
    WithoutKeeps(d, t, SET_VALUES_KEY);
    WithoutKeeps(d, t, BIGINT_VALUE_KEY);
    WithoutKeeps(d, t, STREAM_ID_KEY);
    SamePayloads(tag, Without(d, t), d, r);
  }

  // A map whose entries decode to these properties, one of them a tag string, is taken for what
  // that tag and its payload stand for; otherwise it stays an object with all its properties.
  lemma TaggedDecodes(entries: seq<Entry>, d: seq<Prop>, t: nat) returns (r: Option<Result<JSValue, WireError>>)
    requires Decodes(entries, d) && DistinctKeys(d) && TaggedAt(d, Some(t))
    ensures StandsFor(d[t].value.s, d, r)
    ensures Decode(IMap(entries)) == if r.Some? then r.value else Ok(Object(Rebuilt(d, Some(t))))
  {
    var tag, plain := d[t].value.s, Without(d, t);
    r := FromTag(TagOf(tag), plain);
    TagStands(tag, plain);
    LookedUpWithoutTag(d, t, tag, r);
    DecodeDistinct(entries, d, Some(t));
    MapDecodes(entries);
    TagMovesToTheEnd(d, t);
  }

  lemma TagMovesToTheEnd(d: seq<Prop>, t: nat)
    requires DistinctKeys(d) && TaggedAt(d, Some(t))
    ensures Insert(Without(d, t), TYPE_TAG, Str(d[t].value.s)) == Rebuilt(d, Some(t))
  {
    assert !HasKey(Without(d, t), TYPE_TAG);
    InsertAppends(Without(d, t), TYPE_TAG, Str(d[t].value.s));
  }

  // A map with no tag string is the object of its properties.
  lemma UntaggedDecodes(entries: seq<Entry>, d: seq<Prop>)
    requires Decodes(entries, d) && DistinctKeys(d) && TaggedAt(d, None)
    ensures Decode(IMap(entries)) == Ok(Object(d))
  {
    DecodeDistinct(entries, d, None);
    MapDecodes(entries);
  }

  // An item that serde offers and the encoder never writes.
  lemma ForeignItemsDecode(i: int)
    ensures Decode(IUnit) == Ok(Undefined)
    ensures I64_MIN <= i <= I64_MAX ==> Decode(IInt(i)) == Ok(Int(i))
    ensures i > I64_MAX ==> Decode(IInt(i)) == Ok(Float(Finite(i as real)))
  {
  }

  // A tag and one payload, as a guest's own `prepare` sends them.
  lemma TaggedWithDecodes(tag: string, key: string, payload: Item) returns (r: Option<Result<JSValue, WireError>>)
    requires key != TYPE_TAG && Decode(payload).Ok?
    ensures StandsFor(tag, [Prop(TYPE_TAG, Str(tag)), Prop(key, Decode(payload).value)], r)
    ensures r.Some? ==> Decode(TaggedWith(tag, key, payload)) == r.value
  {
    var d := [Prop(TYPE_TAG, Str(tag)), Prop(key, Decode(payload).value)];
    r := TaggedDecodes([Entry(TYPE_TAG, IStr(tag)), Entry(key, payload)], d, 0);
  }

  // The guest's Date goes through a double and arrives as the same millisecond.
  lemma FloatDateDecodes(ms: i64)
    ensures Decode(TaggedWith(DATE_TYPE, DATE_EPOCH_KEY, IFloat(Finite(ms as real)))) == Ok(Date(ms))
  {
    KnownTags();
    var x := ms as real;
    var d := [Prop(TYPE_TAG, Str(DATE_TYPE)), Prop(DATE_EPOCH_KEY, Float(Finite(x)))];
    var r := TaggedWithDecodes(DATE_TYPE, DATE_EPOCH_KEY, IFloat(Finite(x)));
    GetAt(d, 1);
    CastOfInteger(ms, I64_MIN, I64_MAX, r.value.value.ms);
  }

  // ---- to Python ----

  // What a tag string makes of an object with these properties on its way to Python; None makes
  // it a dict.
  ghost predicate TakenAs(tag: string, props: seq<Prop>, handle: bool, m: Meter, r: Option<(Result<PyValue, ConvError>, Meter)>) {
    if tag == UNDEFINED_TYPE then r == Some((Ok(PyUndefined), m))
    else if tag == DATE_TYPE then
      match Get(props, DATE_EPOCH_KEY)
      case None => r == None
      case Some(Int(ms)) => r == Some((DatetimeOf(ms), m))
      case Some(Float(Finite(x))) => exists ms: i64 :: CastTo(x, I64_MIN, I64_MAX, ms) && r == Some((DatetimeOf(ms), m))
      case Some(_) => r == Some((Err(BadPayload), m))
    else if tag == SET_TYPE then
      match Get(props, SET_VALUES_KEY)
      case Some(Array(values)) =>
        var (items, m1) := FromJsSet(values, handle, m);
        r == Some((if items.Ok? then Ok(PySet(items.value)) else Err(items.error), m1))
      case _ => r == None
    else if tag == BIGINT_TYPE then
      match Get(props, BIGINT_VALUE_KEY)
      case Some(Str(text)) => ReadsAs(text, m, r)
      case _ => r == None
    else r == None
  }

  ghost predicate TakenByTag(props: seq<Prop>, handle: bool, m: Meter, r: Option<(Result<PyValue, ConvError>, Meter)>) {
    match Get(props, TYPE_TAG)
    case Some(Str(tag)) => TakenAs(tag, props, handle, m, r)
    case _ => r == None
  }

  ghost predicate ReadsAs(text: string, m: Meter, r: Option<(Result<PyValue, ConvError>, Meter)>) {
    || (r == Some((Err(BadPayload), m)) && forall n :: !Decimal.Denotes(text, n))
    || exists n :: Decimal.Denotes(text, n) && r == Some((Ok(PyInt(n)), m))
  }

  function DatetimeOf(ms: i64): Result<PyValue, ConvError> {
    if DateInRange(ms) then Ok(PyDatetime(ms)) else Err(DateRange)
  }

  // An object whose tag string and payload Python's side knows becomes what they stand for, at
  // no cost of its own; every other object becomes a dict.
  lemma TaggedConverts(props: seq<Prop>, handle: bool, m: Meter) returns (r: Option<(Result<PyValue, ConvError>, Meter)>)
    ensures TakenByTag(props, handle, m, r)
    ensures var (entries, m1) := FromJsProps(props, handle, m);
      FromJsObject(props, handle, m) ==
        if r.Some? then r.value else (if entries.Ok? then Ok(PyDict(entries.value)) else Err(entries.error), m1)
  {
    r := if Classify(props).AsDict? then None else Some(FromJsObject(props, handle, m));
    match Get(props, TYPE_TAG)
    case Some(Str(tag)) =>
      if tag == DATE_TYPE {
        match Get(props, DATE_EPOCH_KEY)
        case Some(Float(Finite(x))) =>
          CastsToI64(x);
          assert Classify(props) == AsDate(Some(TruncateToI64(x)));
        case _ =>
      } else if tag == BIGINT_TYPE {
        match Get(props, BIGINT_VALUE_KEY)
        case Some(Str(text)) => ReadsAsItDenotes(text, m);
        case _ =>
      }
    case _ =>
  }

  lemma ReadsAsItDenotes(text: string, m: Meter)
    ensures var n := Decimal.Parse(text); ReadsAs(text, m, Some((if n.Some? then Ok(PyInt(n.value)) else Err(BadPayload), m)))
  {
    forall n ensures Decimal.Parse(text) == Some(n) <==> Decimal.Denotes(text, n) {
      Decimal.ParsesExactlyNumerals(text, n);
    }
  }
}
