// Exactly which values survive the wire: deserialize(serialize(v)) is v again, maps compared
// without order, if and only if no object inside v carries a tag and the payload it needs.
module WireRoundTrip {
  import opened Wrappers
  import opened JsValue
  import opened WireCodec
  import Decimal

  predicate FunctionFree(v: JSValue) {
    match v
    case Array(items) => forall i :: 0 <= i < |items| ==> FunctionFree(items[i])
    case Set(items) => forall i :: 0 <= i < |items| ==> FunctionFree(items[i])
    case Object(props) => forall i :: 0 <= i < |props| ==> FunctionFree(props[i].value)
    case Function(_) => false
    case _ => true
  }

  // The payload each known tag needs before an object is taken for the tagged value.
  predicate Carries(tag: KnownTag, props: seq<Prop>) {
    match tag
    case UndefinedTag => true
    case DateTag => CarriesDate(Get(props, DATE_EPOCH_KEY))
    case SetTag => CarriesArray(Get(props, SET_VALUES_KEY))
    case BigIntTag => Get(props, BIGINT_VALUE_KEY).Some?
    case JsStreamTag => Get(props, STREAM_ID_KEY).Some?
    case PyStreamTag => Get(props, STREAM_ID_KEY).Some?
    case OtherTag => false
  }

  // An own `__peno_type` string naming a known tag, together with that tag's payload.
  predicate Forged(props: seq<Prop>) {
    match Get(props, TYPE_TAG)
    case Some(Str(tag)) => Carries(TagOf(tag), props)
    case _ => false
  }

  predicate CarriesDate(v: Option<JSValue>) {
    v.Some? && (v.value.Int? || (v.value.Float? && v.value.f.Finite?))
  }

  predicate CarriesArray(v: Option<JSValue>) {
    v.Some? && v.value.Array?
  }

  // No object anywhere inside is forged.
  predicate Clean(v: JSValue) {
    match v
    case Array(items) => forall i :: 0 <= i < |items| ==> Clean(items[i])
    case Set(items) => forall i :: 0 <= i < |items| ==> Clean(items[i])
    case Object(props) => !Forged(props) && forall i :: 0 <= i < |props| ==> Clean(props[i].value)
    case _ => true
  }

  // Equality of values, objects as maps.
  predicate Same(v: JSValue, w: JSValue) {
    match v
    case Array(items) => w.Array? && |items| == |w.items| && forall i :: 0 <= i < |items| ==> Same(items[i], w.items[i])
    case Set(items) => w.Set? && |items| == |w.items| && forall i :: 0 <= i < |items| ==> Same(items[i], w.items[i])
    case Object(props) =>
      && w.Object? && |props| == |w.props|
      && forall i :: 0 <= i < |props| ==>
           HasKey(w.props, props[i].key) && Same(props[i].value, Get(w.props, props[i].key).value)
    case _ => w == v
  }

  function Trip(v: JSValue): Result<JSValue, WireError> {
    var item :- Encode(v);
    Decode(item)
  }

  predicate Survives(v: JSValue) {
    Trip(v).Ok? && Same(v, Trip(v).value)
  }

  // ---- elementwise views of the codec ----

  lemma {:induction false} EncodeAllEach(items: seq<JSValue>)
    ensures EncodeAll(items).Ok? <==> forall i :: 0 <= i < |items| ==> Encode(items[i]).Ok?
    ensures EncodeAll(items).Ok? ==> |EncodeAll(items).value| == |items|
    ensures EncodeAll(items).Ok? ==>
      forall i :: 0 <= i < |items| ==> Encode(items[i]) == Ok(EncodeAll(items).value[i])
    decreases |items|
  {
    if items != [] {
      EncodeAllEach(items[..|items| - 1]);
    }
  }

  lemma {:induction false} EncodePropsEach(props: seq<Prop>)
    ensures EncodeProps(props).Ok? <==> forall i :: 0 <= i < |props| ==> Encode(props[i].value).Ok?
    ensures EncodeProps(props).Ok? ==> |EncodeProps(props).value| == |props|
    ensures EncodeProps(props).Ok? ==>
      forall i :: 0 <= i < |props| ==>
        EncodeProps(props).value[i].key == props[i].key && Encode(props[i].value) == Ok(EncodeProps(props).value[i].value)
    decreases |props|
  {
    if props != [] {
      EncodePropsEach(props[..|props| - 1]);
    }
  }

  lemma {:induction false} DecodeAllTo(items: seq<Item>, values: seq<JSValue>)
    requires |items| == |values| && forall i :: 0 <= i < |items| ==> Decode(items[i]) == Ok(values[i])
    ensures DecodeAll(items) == Ok(values)
    decreases |items|
  {
    if items != [] {
      DecodeAllTo(items[..|items| - 1], values[..|items| - 1]);
      assert values == values[..|items| - 1] + [values[|items| - 1]];
    }
  }

  // One item that does not decode spoils the list, one entry the map.
  lemma {:induction false} ItemSpoils(items: seq<Item>, i: nat)
    requires i < |items| && Decode(items[i]).Err?
    ensures DecodeAll(items).Err?
    decreases |items|
  {
    if i < |items| - 1 {
      ItemSpoils(items[..|items| - 1], i);
    }
  }

  lemma {:induction false} EntrySpoils(entries: seq<Entry>, i: nat)
    requires i < |entries| && Decode(entries[i].value).Err?
    ensures DecodeEntries(entries).Err?
    decreases |entries|
  {
    if i < |entries| - 1 {
      EntrySpoils(entries[..|entries| - 1], i);
    }
  }

  // ---- one step through the wire ----

  lemma TripVia(v: JSValue, item: Item)
    requires Encode(v) == Ok(item)
    ensures Trip(v) == Decode(item)
  {
  }

  lemma TripFails(v: JSValue)
    requires Encode(v).Err?
    ensures Trip(v).Err?
  {
  }

  lemma ArrayEncodes(items: seq<JSValue>)
    ensures EncodeAll(items).Ok? ==> Encode(Array(items)) == Ok(ISeq(EncodeAll(items).value))
    ensures EncodeAll(items).Err? ==> Encode(Array(items)).Err?
  {
  }

  lemma ObjectEncodes(props: seq<Prop>)
    ensures EncodeProps(props).Ok? ==> Encode(Object(props)) == Ok(IMap(EncodeProps(props).value))
    ensures EncodeProps(props).Err? ==> Encode(Object(props)).Err?
  {
  }

  lemma ListDecodes(items: seq<Item>)
    ensures DecodeAll(items).Ok? ==> Decode(ISeq(items)) == Ok(Array(DecodeAll(items).value))
    ensures DecodeAll(items).Err? ==> Decode(ISeq(items)).Err?
  {
  }

  lemma MapDecodes(entries: seq<Entry>)
    ensures DecodeEntries(entries).Ok? ==> Decode(IMap(entries)) == Finish(DecodeEntries(entries).value)
    ensures DecodeEntries(entries).Err? ==> Decode(IMap(entries)).Err?
  {
  }

  lemma ArrayTrip(items: seq<JSValue>)
    ensures EncodeAll(items).Ok? ==> Trip(Array(items)) == Decode(ISeq(EncodeAll(items).value))
    ensures EncodeAll(items).Err? ==> Trip(Array(items)).Err?
  {
    ArrayEncodes(items);
    if EncodeAll(items).Ok? {
      TripVia(Array(items), ISeq(EncodeAll(items).value));
    } else {
      TripFails(Array(items));
    }
  }

  lemma ObjectTrip(props: seq<Prop>)
    ensures EncodeProps(props).Ok? ==> Trip(Object(props)) == Decode(IMap(EncodeProps(props).value))
    ensures EncodeProps(props).Err? ==> Trip(Object(props)).Err?
  {
    ObjectEncodes(props);
    if EncodeProps(props).Ok? {
      TripVia(Object(props), IMap(EncodeProps(props).value));
    } else {
      TripFails(Object(props));
    }
  }

  // The collected entries of decoded properties, in one pass.
  function CollectAll(d: seq<Prop>): Collected {
    if d == [] then Collected([], None)
    else Collect(CollectAll(d[..|d| - 1]), d[|d| - 1].key, d[|d| - 1].value)
  }

  // d lists what each entry decodes to.
  ghost predicate Decodes(entries: seq<Entry>, d: seq<Prop>) {
    |d| == |entries| && forall i :: 0 <= i < |d| ==> d[i].key == entries[i].key && Decode(entries[i].value) == Ok(d[i].value)
  }

  lemma {:induction false} DecodesToCollected(entries: seq<Entry>, d: seq<Prop>)
    requires Decodes(entries, d)
    ensures DecodeEntries(entries) == Ok(CollectAll(d))
    decreases |entries|
  {
    if entries != [] {
      DecodesToCollected(entries[..|entries| - 1], d[..|d| - 1]);
    }
  }

  // ---- what visit_map collects from distinct keys ----

  function Without(d: seq<Prop>, t: nat): seq<Prop>
    requires t < |d|
  {
    d[..t] + d[t + 1..]
  }

  lemma InsertAppends(props: seq<Prop>, key: string, value: JSValue)
    requires !HasKey(props, key)
    ensures Insert(props, key, value) == props + [Prop(key, value)]
  {
  }

  lemma FrontMisses(d: seq<Prop>)
    requires DistinctKeys(d) && d != []
    ensures DistinctKeys(d[..|d| - 1]) && !HasKey(d[..|d| - 1], d[|d| - 1].key)
  {
  }

  // The tag's place, known in advance.
  ghost predicate TaggedAt(d: seq<Prop>, t: Option<nat>) {
    match t
    case None => forall i :: 0 <= i < |d| && d[i].key == TYPE_TAG ==> !d[i].value.Str?
    case Some(i) => i < |d| && d[i].key == TYPE_TAG && d[i].value.Str?
  }

  function Remaining(d: seq<Prop>, t: Option<nat>): Collected
    requires t.Some? ==> t.value < |d| && d[t.value].value.Str?
  {
    match t
    case None => Collected(d, None)
    case Some(i) => Collected(Without(d, i), Some(d[i].value.s))
  }

  lemma WithoutGrows(d: seq<Prop>, t: nat)
    requires t < |d| - 1
    ensures Without(d, t) == Without(d[..|d| - 1], t) + [d[|d| - 1]]
  {
  }

  lemma WithoutLacks(d: seq<Prop>, t: nat, key: string)
    requires t < |d| && !HasKey(d, key)
    ensures !HasKey(Without(d, t), key)
  {
    assert forall i :: 0 <= i < |Without(d, t)| ==> Without(d, t)[i] == d[if i < t then i else i + 1];
  }

  lemma RemainingGrows(d: seq<Prop>, t: Option<nat>)
    requires DistinctKeys(d) && d != [] && TaggedAt(d, t) && t != Some(|d| - 1)
    ensures TaggedAt(d[..|d| - 1], t)
    ensures Remaining(d, t) == Collect(Remaining(d[..|d| - 1], t), d[|d| - 1].key, d[|d| - 1].value)
  {
    var front, last := d[..|d| - 1], d[|d| - 1];
    FrontMisses(d);
    if t.None? {
      InsertAppends(front, last.key, last.value);
      assert d == front + [last];
    } else {
      assert d[t.value].key != last.key && front[t.value] == d[t.value];
      WithoutGrows(d, t.value);
      WithoutLacks(front, t.value, last.key);
      InsertAppends(Without(front, t.value), last.key, last.value);
    }
  }

  lemma {:induction false} CollectsAllButTheTag(d: seq<Prop>, t: Option<nat>)
    requires DistinctKeys(d) && TaggedAt(d, t)
    ensures CollectAll(d) == Remaining(d, t)
    decreases |d|
  {
    if d != [] {
      var front := d[..|d| - 1];
      if t == Some(|d| - 1) {
        CollectsAllButTheTag(front, None);
        assert Without(d, |d| - 1) == front;
      } else {
        RemainingGrows(d, t);
        CollectsAllButTheTag(front, t);
      }
    }
  }

  lemma WithoutKeeps(d: seq<Prop>, t: nat, key: string)
    requires DistinctKeys(d) && t < |d| && key != d[t].key
    ensures DistinctKeys(Without(d, t)) && Get(Without(d, t), key) == Get(d, key)
    ensures !HasKey(Without(d, t), d[t].key)
  {
    var w := Without(d, t);
    assert forall i :: 0 <= i < |w| ==> w[i] == d[if i < t then i else i + 1];
    if HasKey(d, key) {
      var i := IndexOf(d, key).value;
      GetAt(d, i);
      var j := if i < t then i else i - 1;
      assert w[j] == d[i];
      GetAt(w, j);
    }
  }

  lemma MapsAreNotLeaves(entries: seq<Entry>)
    ensures Decode(IMap(entries)).Ok? ==>
      var v := Decode(IMap(entries)).value; !v.Str? && !v.Int? && !v.Float? && !v.Array?
  {
    if DecodeEntries(entries).Ok? {
      FinishIsNoLeaf(DecodeEntries(entries).value);
    }
  }

  lemma FinishIsNoLeaf(c: Collected)
    ensures Finish(c).Ok? ==> var v := Finish(c).value; !v.Str? && !v.Int? && !v.Float? && !v.Array?
  {
  }

  // Decoding keeps the constructor of everything but objects, and turns no object into one of
  // the payload kinds.
  lemma KindKept(v: JSValue)
    requires Trip(v).Ok?
    ensures Trip(v).value.Str? <==> v.Str?
    ensures Trip(v).value.Int? <==> v.Int?
    ensures Trip(v).value.Float? <==> v.Float?
    ensures Trip(v).value.Array? <==> v.Array?
    ensures v.Str? || v.Int? || v.Float? ==> Trip(v).value == v
  {
    if Encode(v).value.IMap? {
      MapsAreNotLeaves(Encode(v).value.entries);
    }
  }

  lemma TagAloneTrip()
    ensures Decode(Tagged(UNDEFINED_TYPE)) == Ok(Undefined)
  {
    var e := [Entry(TYPE_TAG, IStr(UNDEFINED_TYPE))];
    assert e[..0] == [];
    assert DecodeEntries(e) == Ok(Collected([], Some(UNDEFINED_TYPE)));
  }

  lemma TaggedTrip(name: string, key: string, payload: Item)
    requires key != TYPE_TAG
    ensures Decode(payload).Err? ==> Decode(TaggedWith(name, key, payload)).Err?
    ensures Decode(payload).Ok? ==>
      Decode(TaggedWith(name, key, payload)) == Finish(Collected([Prop(key, Decode(payload).value)], Some(name)))
    ensures Decode(payload).Ok? ==> Get([Prop(key, Decode(payload).value)], key) == Some(Decode(payload).value)
  {
    var e := [Entry(TYPE_TAG, IStr(name)), Entry(key, payload)];
    assert e[..1] == [e[0]] && e[..1][..0] == [];
    assert DecodeEntries(e[..1]) == Ok(Collected([], Some(name)));
    if Decode(payload).Ok? {
      var p := [Prop(key, Decode(payload).value)];
      assert DistinctKeys(p) && p[0].key == key;
      GetAt(p, 0);
      assert Insert([], key, Decode(payload).value) == p;
    }
  }

  // ---- the theorem ----

  lemma {:induction false} EncodesUnlessFunction(v: JSValue)
    ensures Encode(v).Ok? <==> FunctionFree(v)
    decreases v
  {
    match v
    case Array(items) => AllEncodeUnlessFunction(items);
    case Set(items) => AllEncodeUnlessFunction(items);
    case Object(props) => PropsEncodeUnlessFunction(props);
    case _ =>
  }

  lemma {:induction false} AllEncodeUnlessFunction(items: seq<JSValue>)
    ensures EncodeAll(items).Ok? <==> forall i :: 0 <= i < |items| ==> FunctionFree(items[i])
    decreases items
  {
    if items != [] {
      AllEncodeUnlessFunction(items[..|items| - 1]);
      EncodesUnlessFunction(items[|items| - 1]);
    }
  }

  lemma {:induction false} PropsEncodeUnlessFunction(props: seq<Prop>)
    ensures EncodeProps(props).Ok? <==> forall i :: 0 <= i < |props| ==> FunctionFree(props[i].value)
    decreases props
  {
    if props != [] {
      PropsEncodeUnlessFunction(props[..|props| - 1]);
      EncodesUnlessFunction(props[|props| - 1].value);
    }
  }

  lemma KnownTags()
    ensures TagOf(SET_TYPE) == SetTag && TagOf(BIGINT_TYPE) == BigIntTag && TagOf(DATE_TYPE) == DateTag
    ensures TagOf(JS_STREAM_TYPE) == JsStreamTag && TagOf(PY_STREAM_TYPE) == PyStreamTag
    ensures SET_VALUES_KEY != TYPE_TAG && BIGINT_VALUE_KEY != TYPE_TAG && DATE_EPOCH_KEY != TYPE_TAG && STREAM_ID_KEY != TYPE_TAG
  {
  }

  lemma TaggedResolves(name: string, tag: KnownTag, key: string, payload: Item, value: JSValue)
    requires TagOf(name) == tag && key != TYPE_TAG && Decode(payload) == Ok(value)
    ensures Get([Prop(key, value)], key) == Some(value)
    ensures FromTag(tag, [Prop(key, value)]).Some? ==>
      Decode(TaggedWith(name, key, payload)) == FromTag(tag, [Prop(key, value)]).value
  {
    TaggedTrip(name, key, payload);
  }

  lemma BigIntSurvives(n: int)
    ensures Trip(BigInt(n)) == Ok(BigInt(n))
  {
    var text := Decimal.ToDecimal(n);
    KnownTags();
    TaggedResolves(BIGINT_TYPE, BigIntTag, BIGINT_VALUE_KEY, IStr(text), Str(text));
    Decimal.ReadsBack(n);
  }

  lemma DateSurvives(ms: i64)
    ensures Trip(Date(ms)) == Ok(Date(ms))
  {
    KnownTags();
    TaggedResolves(DATE_TYPE, DateTag, DATE_EPOCH_KEY, IInt(ms), Int(ms));
  }

  lemma StreamIdSurvives(name: string, tag: KnownTag, id: u32)
    requires TagOf(name) == tag && (tag == JsStreamTag || tag == PyStreamTag)
    ensures Decode(TaggedWith(name, STREAM_ID_KEY, IInt(id))) == Ok(if tag == JsStreamTag then JsStream(id) else PyStream(id))
  {
    KnownTags();
    assert StreamIdOf(Int(id)) == Some(id);
    TaggedResolves(name, tag, STREAM_ID_KEY, IInt(id), Int(id));
  }

  lemma LeafSurvives(v: JSValue)
    requires FunctionFree(v) && !v.Array? && !v.Set? && !v.Object?
    ensures Survives(v)
  {
    match v
    case Undefined => TagAloneTrip();
    case BigInt(n) => BigIntSurvives(n);
    case Date(ms) => DateSurvives(ms);
    case JsStream(id) =>
      KnownTags();
      StreamIdSurvives(JS_STREAM_TYPE, JsStreamTag, id);
    case PyStream(id) =>
      KnownTags();
      StreamIdSurvives(PY_STREAM_TYPE, PyStreamTag, id);
    case _ =>
  }

  lemma LostDoesNotSurvive(v: JSValue)
    requires Trip(v).Err?
    ensures !Survives(v)
  {
  }

  lemma ArrayIsLost(items: seq<JSValue>, i: nat)
    requires i < |items| && Trip(items[i]).Err?
    ensures Trip(Array(items)).Err?
  {
    EncodeAllEach(items);
    ArrayTrip(items);
    if EncodeAll(items).Ok? {
      var encoded := EncodeAll(items).value;
      TripVia(items[i], encoded[i]);
      ItemSpoils(encoded, i);
      ListDecodes(encoded);
    }
  }

  lemma ArrayArrives(items: seq<JSValue>) returns (values: seq<JSValue>)
    requires forall i :: 0 <= i < |items| ==> Trip(items[i]).Ok?
    ensures Trip(Array(items)) == Ok(Array(values))
    ensures |values| == |items| && forall i :: 0 <= i < |items| ==> Trip(items[i]) == Ok(values[i])
  {
    values := seq(|items|, i requires 0 <= i < |items| => Trip(items[i]).value);
    EncodeAllEach(items);
    ArrayTrip(items);
    var encoded := EncodeAll(items).value;
    forall i | 0 <= i < |items| ensures Decode(encoded[i]) == Ok(values[i]) {
      TripVia(items[i], encoded[i]);
    }
    DecodeAllTo(encoded, values);
    ListDecodes(encoded);
  }

  lemma SurvivesAs(v: JSValue, w: JSValue)
    requires Trip(v) == Ok(w)
    ensures Survives(v) <==> Same(v, w)
  {
  }

  lemma ArraySurvives(items: seq<JSValue>)
    ensures Survives(Array(items)) <==> forall i :: 0 <= i < |items| ==> Survives(items[i])
    ensures Trip(Array(items)).Ok? ==> Trip(Array(items)).value.Array?
  {
    if i: nat :| i < |items| && Trip(items[i]).Err? {
      ArrayIsLost(items, i);
      LostDoesNotSurvive(Array(items));
      LostDoesNotSurvive(items[i]);
    } else {
      var values := ArrayArrives(items);
      SurvivesAs(Array(items), Array(values));
      forall i | 0 <= i < |items| ensures Survives(items[i]) <==> Same(items[i], values[i]) {
        SurvivesAs(items[i], values[i]);
      }
    }
  }

  // A set is an array under a tag.
  lemma SetEncodes(items: seq<JSValue>)
    requires EncodeAll(items).Ok?
    ensures Encode(Set(items)) == Ok(TaggedWith(SET_TYPE, SET_VALUES_KEY, ISeq(EncodeAll(items).value)))
  {
  }

  lemma SetUnwraps(plain: seq<Prop>, payload: JSValue)
    requires Get(plain, SET_VALUES_KEY) == Some(payload) && payload.Array?
    ensures FromTag(SetTag, plain) == Some(Ok(Set(payload.items)))
  {
  }

  lemma SetDecodes(payload: Item)
    ensures Decode(payload).Err? ==> Decode(TaggedWith(SET_TYPE, SET_VALUES_KEY, payload)).Err?
    ensures Decode(payload).Ok? && Decode(payload).value.Array? ==>
      Decode(TaggedWith(SET_TYPE, SET_VALUES_KEY, payload)) == Ok(Set(Decode(payload).value.items))
  {
    KnownTags();
    TaggedTrip(SET_TYPE, SET_VALUES_KEY, payload);
    if Decode(payload).Ok? && Decode(payload).value.Array? {
      SetUnwraps([Prop(SET_VALUES_KEY, Decode(payload).value)], Decode(payload).value);
      TaggedResolves(SET_TYPE, SetTag, SET_VALUES_KEY, payload, Decode(payload).value);
    }
  }

  lemma SetTrip(items: seq<JSValue>)
    requires EncodeAll(items).Ok?
    ensures Trip(Array(items)).Err? ==> Trip(Set(items)).Err?
    ensures Trip(Array(items)).Ok? && Trip(Array(items)).value.Array? ==>
      Trip(Set(items)) == Ok(Set(Trip(Array(items)).value.items))
  {
    var payload := ISeq(EncodeAll(items).value);
    ArrayTrip(items);
    SetEncodes(items);
    TripVia(Set(items), TaggedWith(SET_TYPE, SET_VALUES_KEY, payload));
    SetDecodes(payload);
  }

  lemma SetSurvives(items: seq<JSValue>)
    requires forall i :: 0 <= i < |items| ==> FunctionFree(items[i])
    ensures Survives(Set(items)) <==> Survives(Array(items))
  {
    AllEncodeUnlessFunction(items);
    ArraySurvives(items);
    SetTrip(items);
    if Trip(Array(items)).Ok? {
      var back := Trip(Array(items)).value.items;
      SurvivesAs(Array(items), Array(back));
      SurvivesAs(Set(items), Set(back));
    } else {
      LostDoesNotSurvive(Array(items));
      LostDoesNotSurvive(Set(items));
    }
  }

  lemma TagsAreNotObjects(tag: KnownTag, plain: seq<Prop>)
    ensures FromTag(tag, plain).Some? && FromTag(tag, plain).value.Ok? ==> !FromTag(tag, plain).value.value.Object?
  {
  }

  // d is props with every value sent through the wire.
  ghost predicate Wired(props: seq<Prop>, d: seq<Prop>) {
    |d| == |props| && forall i :: 0 <= i < |d| ==> d[i].key == props[i].key && Trip(props[i].value) == Ok(d[i].value)
  }

  lemma WiredGet(props: seq<Prop>, d: seq<Prop>, key: string)
    requires DistinctKeys(props) && Wired(props, d)
    ensures DistinctKeys(d) && (HasKey(props, key) <==> HasKey(d, key))
    ensures HasKey(props, key) ==> Trip(Get(props, key).value) == Ok(Get(d, key).value)
  {
    if HasKey(props, key) {
      var i :| 0 <= i < |props| && props[i].key == key;
      GetAt(props, i);
      assert d[i].key == key;
      GetAt(d, i);
    }
    if HasKey(d, key) {
      var i :| 0 <= i < |d| && d[i].key == key;
      assert props[i].key == key;
    }
  }

  lemma RecognisedIffCarried(tag: KnownTag, plain: seq<Prop>)
    ensures FromTag(tag, plain).Some? <==> Carries(tag, plain)
  {
  }

  lemma PayloadKept(props: seq<Prop>, d: seq<Prop>, t: nat, key: string)
    requires DistinctKeys(props) && Wired(props, d) && TaggedAt(d, Some(t)) && key != TYPE_TAG
    ensures Get(Without(d, t), key).Some? <==> Get(props, key).Some?
    ensures CarriesDate(Get(Without(d, t), key)) <==> CarriesDate(Get(props, key))
    ensures CarriesArray(Get(Without(d, t), key)) <==> CarriesArray(Get(props, key))
  {
    WiredGet(props, d, key);
    WithoutKeeps(d, t, key);
    if HasKey(props, key) {
      KindKept(Get(props, key).value);
    }
  }

  // The decoder recognises a tag exactly when the source object is forged.
  lemma ForgedIsRecognised(props: seq<Prop>, d: seq<Prop>, t: nat)
    requires DistinctKeys(props) && Wired(props, d)
    requires TaggedAt(d, Some(t))
    ensures Forged(props) <==> FromTag(TagOf(d[t].value.s), Without(d, t)).Some?
  {
    var plain := Without(d, t);
    GetAt(props, t);
    KindKept(props[t].value);
    RecognisedIffCarried(TagOf(d[t].value.s), plain);
    match TagOf(d[t].value.s)
    case DateTag => PayloadKept(props, d, t, DATE_EPOCH_KEY);
    case SetTag => PayloadKept(props, d, t, SET_VALUES_KEY);
    case BigIntTag => PayloadKept(props, d, t, BIGINT_VALUE_KEY);
    case JsStreamTag => PayloadKept(props, d, t, STREAM_ID_KEY);
    case PyStreamTag => PayloadKept(props, d, t, STREAM_ID_KEY);
    case _ =>
  }

  lemma UntaggedIsNotForged(props: seq<Prop>, d: seq<Prop>)
    requires DistinctKeys(props) && Wired(props, d) && TaggedAt(d, None)
    ensures !Forged(props)
  {
    if HasKey(props, TYPE_TAG) {
      var i := IndexOf(props, TYPE_TAG).value;
      GetAt(props, i);
      KindKept(props[i].value);
    }
  }

  // The rebuilt object: the tag, if any, has moved to the end.
  function Rebuilt(d: seq<Prop>, t: Option<nat>): seq<Prop>
    requires t.Some? ==> t.value < |d|
  {
    match t
    case None => d
    case Some(i) => Without(d, i) + [d[i]]
  }

  lemma RebuiltAt(d: seq<Prop>, k: nat, i: nat) returns (j: nat)
    requires k < |d| && i < |d|
    ensures j < |d| == |Rebuilt(d, Some(k))| && Rebuilt(d, Some(k))[j] == d[i]
  {
    j := if i < k then i else if i == k then |d| - 1 else i - 1;
  }

  lemma RebuiltDistinct(d: seq<Prop>, k: nat)
    requires DistinctKeys(d) && k < |d|
    ensures DistinctKeys(Rebuilt(d, Some(k)))
  {
    var q := Rebuilt(d, Some(k));
    assert forall j :: 0 <= j < |q| ==> q[j] == d[if j < k then j else if j < |d| - 1 then j + 1 else k];
  }

  lemma RebuiltGet(d: seq<Prop>, t: Option<nat>, i: nat)
    requires DistinctKeys(d) && (t.Some? ==> t.value < |d|) && i < |d|
    ensures |Rebuilt(d, t)| == |d|
    ensures HasKey(Rebuilt(d, t), d[i].key) && Get(Rebuilt(d, t), d[i].key) == Some(d[i].value)
  {
    if t.None? {
      GetAt(d, i);
    } else {
      var j := RebuiltAt(d, t.value, i);
      RebuiltDistinct(d, t.value);
      GetAt(Rebuilt(d, t), j);
    }
  }

  lemma ObjectFinishes(props: seq<Prop>, d: seq<Prop>, t: Option<nat>)
    requires DistinctKeys(props) && Wired(props, d) && TaggedAt(d, t)
    ensures Forged(props) ==> !(Finish(Remaining(d, t)).Ok? && Finish(Remaining(d, t)).value.Object?)
    ensures !Forged(props) ==> Finish(Remaining(d, t)) == Ok(Object(Rebuilt(d, t)))
  {
    if t.None? {
      UntaggedIsNotForged(props, d);
    } else {
      ForgedIsRecognised(props, d, t.value);
      TagsAreNotObjects(TagOf(d[t.value].value.s), Without(d, t.value));
      assert DistinctKeys(d) by { WiredGet(props, d, TYPE_TAG); }
      assert !HasKey(Without(d, t.value), TYPE_TAG);
      InsertAppends(Without(d, t.value), TYPE_TAG, d[t.value].value);
    }
  }

  // Objects are compared key by key.
  lemma SameObjects(props: seq<Prop>, q: seq<Prop>, d: seq<Prop>)
    requires |q| == |props| == |d|
    requires forall i :: 0 <= i < |props| ==> HasKey(q, props[i].key) && Get(q, props[i].key) == Some(d[i].value)
    ensures Same(Object(props), Object(q)) <==> forall i :: 0 <= i < |props| ==> Same(props[i].value, d[i].value)
  {
  }

  lemma WiredSurvives(props: seq<Prop>, d: seq<Prop>, t: Option<nat>)
    requires DistinctKeys(props) && Wired(props, d) && TaggedAt(d, t)
    requires Trip(Object(props)) == Finish(Remaining(d, t))
    ensures Survives(Object(props)) <==> !Forged(props) && forall i :: 0 <= i < |props| ==> Survives(props[i].value)
  {
    ObjectFinishes(props, d, t);
    if Forged(props) {
      ForgedDoesNotSurvive(props, Finish(Remaining(d, t)));
    } else {
      WiredGet(props, d, TYPE_TAG);
      var q := Rebuilt(d, t);
      forall i | 0 <= i < |props|
        ensures HasKey(q, props[i].key) && Get(q, props[i].key) == Some(d[i].value)
        ensures |q| == |d|
        ensures Survives(props[i].value) <==> Same(props[i].value, d[i].value)
      {
        RebuiltGet(d, t, i);
        SurvivesAs(props[i].value, d[i].value);
      }
      assert |q| == |d|;
      SurvivesAs(Object(props), Object(q));
      SameObjects(props, q, d);
    }
  }

  lemma ForgedDoesNotSurvive(props: seq<Prop>, r: Result<JSValue, WireError>)
    requires Trip(Object(props)) == r && !(r.Ok? && r.value.Object?)
    ensures !Survives(Object(props))
  {
  }

  lemma DecodeDistinct(entries: seq<Entry>, d: seq<Prop>, t: Option<nat>)
    requires Decodes(entries, d) && DistinctKeys(d) && TaggedAt(d, t)
    ensures DecodeEntries(entries) == Ok(Remaining(d, t))
  {
    DecodesToCollected(entries, d);
    CollectsAllButTheTag(d, t);
  }

  lemma FindTag(d: seq<Prop>) returns (t: Option<nat>)
    ensures TaggedAt(d, t)
  {
    t := None;
    if i: nat :| i < |d| && d[i].key == TYPE_TAG && d[i].value.Str? {
      t := Some(i);
    }
  }

  // Send each property through the wire on its own.
  lemma WireEach(props: seq<Prop>) returns (entries: seq<Entry>, d: seq<Prop>)
    requires forall i :: 0 <= i < |props| ==> Trip(props[i].value).Ok?
    ensures EncodeProps(props) == Ok(entries) && Decodes(entries, d) && Wired(props, d)
  {
    EncodePropsEach(props);
    entries := EncodeProps(props).value;
    d := seq(|props|, i requires 0 <= i < |props| => Prop(props[i].key, Trip(props[i].value).value));
    forall i | 0 <= i < |props| ensures Decode(entries[i].value) == Ok(d[i].value) {
      TripVia(props[i].value, entries[i].value);
    }
  }

  lemma ObjectTripOk(props: seq<Prop>)
    requires DistinctKeys(props) && forall i :: 0 <= i < |props| ==> Trip(props[i].value).Ok?
    ensures Survives(Object(props)) <==> !Forged(props) && forall i :: 0 <= i < |props| ==> Survives(props[i].value)
  {
    var entries, d := WireEach(props);
    WiredGet(props, d, TYPE_TAG);
    var t := FindTag(d);
    DecodeDistinct(entries, d, t);
    ObjectTrip(props);
    MapDecodes(entries);
    WiredSurvives(props, d, t);
  }

  lemma ObjectIsLost(props: seq<Prop>, i: nat)
    requires i < |props| && Trip(props[i].value).Err?
    ensures Trip(Object(props)).Err?
  {
    EncodePropsEach(props);
    ObjectTrip(props);
    if EncodeProps(props).Ok? {
      var entries := EncodeProps(props).value;
      TripVia(props[i].value, entries[i].value);
      EntrySpoils(entries, i);
      MapDecodes(entries);
    }
  }

  lemma ObjectSurvives(props: seq<Prop>)
    requires DistinctKeys(props)
    ensures Survives(Object(props)) <==> !Forged(props) && forall i :: 0 <= i < |props| ==> Survives(props[i].value)
  {
    if i: nat :| i < |props| && Trip(props[i].value).Err? {
      ObjectIsLost(props, i);
      LostDoesNotSurvive(Object(props));
      LostDoesNotSurvive(props[i].value);
    } else {
      ObjectTripOk(props);
    }
  }

  // deserialize(serialize(v)) == v exactly for the values that hide no forged tag.
  lemma {:induction false} RoundTripExact(v: JSValue)
    requires Keyed(v) && FunctionFree(v)
    ensures Survives(v) <==> Clean(v)
    decreases v
  {
    match v
    case Array(items) =>
      ArraySurvives(items);
      forall i | 0 <= i < |items| ensures Survives(items[i]) <==> Clean(items[i]) {
        RoundTripExact(items[i]);
      }
    case Set(items) =>
      ArraySurvives(items);
      SetSurvives(items);
      forall i | 0 <= i < |items| ensures Survives(items[i]) <==> Clean(items[i]) {
        RoundTripExact(items[i]);
      }
    case Object(props) =>
      ObjectSurvives(props);
      forall i | 0 <= i < |props| ensures Survives(props[i].value) <==> Clean(props[i].value) {
        RoundTripExact(props[i].value);
      }
    case _ => LeafSurvives(v);
  }
}
