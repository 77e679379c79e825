// When the two host-to-guest routes build the same guest value: exactly when no object inside
// the host value owns a type tag the bridge's `revive` acts on.
module RoutesAgree {
  import opened Wrappers
  import opened JsValue
  import opened WireCodec
  import opened WireRoundTrip
  import opened GuestRoutes
  import Decimal

  // Values both routes are meant for: no functions, which only one of them takes, and no
  // JavaScript streams, which neither does; integers a double holds exactly, no key that is an
  // accessor on the guest's own objects.
  predicate Transferable(v: JSValue) {
    match v
    case Int(i) => -MAX_SAFE <= i <= MAX_SAFE
    case Date(ms) => -MAX_SAFE <= ms <= MAX_SAFE
    case Array(items) => forall i :: 0 <= i < |items| ==> Transferable(items[i])
    case Set(items) => forall i :: 0 <= i < |items| ==> Transferable(items[i])
    case Object(props) => forall i :: 0 <= i < |props| ==> props[i].key != "__proto__" && Transferable(props[i].value)
    case Function(_) => false
    case JsStream(_) => false
    case _ => true
  }

  predicate ActedOn(tag: KnownTag) {
    tag != OtherTag && tag != JsStreamTag
  }

  predicate Reserved(v: Option<JSValue>) {
    v.Some? && v.value.Str? && ActedOn(TagOf(v.value.s))
  }

  // No object anywhere inside owns a tag string that `revive` acts on.
  predicate Unreserved(v: JSValue) {
    match v
    case Array(items) => forall i :: 0 <= i < |items| ==> Unreserved(items[i])
    case Set(items) => forall i :: 0 <= i < |items| ==> Unreserved(items[i])
    case Object(props) => !Reserved(Get(props, TYPE_TAG)) && forall i :: 0 <= i < |props| ==> Unreserved(props[i].value)
    case _ => true
  }

  // The same, of a guest value.
  predicate GUnreserved(g: Guest) {
    match g
    case GArray(items) => forall i :: 0 <= i < |items| ==> GUnreserved(items[i])
    case GSet(items) => forall i :: 0 <= i < |items| ==> GUnreserved(items[i])
    case GObject(props) => !ActedOn(TagOfGuest(props)) && forall i :: 0 <= i < |props| ==> GUnreserved(props[i].value)
    case _ => true
  }

  // ---- elementwise views ----

  lemma {:induction false} ToGuestsEach(items: seq<JSValue>)
    requires forall i :: 0 <= i < |items| ==> ToGuest(items[i]).Some?
    ensures ToGuests(items).Some? && |ToGuests(items).value| == |items|
    ensures forall i :: 0 <= i < |items| ==> ToGuest(items[i]) == Some(ToGuests(items).value[i])
    decreases |items|
  {
    if items != [] {
      ToGuestsEach(items[..|items| - 1]);
    }
  }

  lemma {:induction false} ToGuestPropsEach(props: seq<Prop>)
    requires forall i :: 0 <= i < |props| ==> ToGuest(props[i].value).Some?
    ensures ToGuestProps(props).Some? && |ToGuestProps(props).value| == |props|
    ensures forall i :: 0 <= i < |props| ==>
      ToGuestProps(props).value[i].key == props[i].key && ToGuest(props[i].value) == Some(ToGuestProps(props).value[i].value)
    decreases |props|
  {
    if props != [] {
      ToGuestPropsEach(props[..|props| - 1]);
    }
  }

  lemma {:induction false} ReviveAllTo(items: seq<Guest>, revived: seq<Guest>)
    requires |items| == |revived| && forall i :: 0 <= i < |items| ==> Revive(items[i]) == Ok(revived[i])
    ensures ReviveAll(items) == Ok(revived)
    decreases |items|
  {
    if items != [] {
      ReviveAllTo(items[..|items| - 1], revived[..|items| - 1]);
      assert revived == revived[..|items| - 1] + [revived[|items| - 1]];
    }
  }

  lemma {:induction false} RevivePropsTo(props: seq<GProp>, revived: seq<GProp>)
    requires |props| == |revived|
    requires forall i :: 0 <= i < |props| ==> props[i].key == revived[i].key && Revive(props[i].value) == Ok(revived[i].value)
    ensures ReviveProps(props) == Ok(revived)
    decreases |props|
  {
    if props != [] {
      RevivePropsTo(props[..|props| - 1], revived[..|props| - 1]);
      assert revived == revived[..|props| - 1] + [revived[|props| - 1]];
    }
  }

  // ---- agreement ----

  lemma {:induction false} Reachable(v: JSValue)
    requires Transferable(v)
    ensures FunctionFree(v) && ToGuest(v).Some?
    decreases v
  {
    match v
    case Array(items) =>
      forall i | 0 <= i < |items| ensures FunctionFree(items[i]) && ToGuest(items[i]).Some? { Reachable(items[i]); }
      ToGuestsEach(items);
    case Set(items) =>
      forall i | 0 <= i < |items| ensures FunctionFree(items[i]) && ToGuest(items[i]).Some? { Reachable(items[i]); }
      ToGuestsEach(items);
    case Object(props) =>
      forall i | 0 <= i < |props| ensures FunctionFree(props[i].value) && ToGuest(props[i].value).Some? { Reachable(props[i].value); }
      ToGuestPropsEach(props);
    case _ =>
  }

  // The properties a tagged item materializes to.
  lemma TaggedGuest(name: string, key: string, payload: Item)
    requires key != TYPE_TAG
    ensures Materialize(TaggedWith(name, key, payload))
         == GObject([GProp(TYPE_TAG, GString(name)), GProp(key, Materialize(payload))])
    ensures var props := [GProp(TYPE_TAG, GString(name)), GProp(key, Materialize(payload))];
      && TagOfGuest(props) == TagOf(name)
      && GGet(props, key) == Some(Materialize(payload))
      && GIndexOf(props, key) == Some(1)
  {
    var props := [GProp(TYPE_TAG, GString(name)), GProp(key, Materialize(payload))];
    assert props[..1] == [props[0]];
    assert GIndexOf(props[..1], TYPE_TAG) == Some(0);
  }

  lemma UndefinedAgrees()
    ensures ViaWire(Undefined) == Some(Ok(GUndefined))
  {
    var props := [GProp(TYPE_TAG, GString(UNDEFINED_TYPE))];
    assert Materialize(Tagged(UNDEFINED_TYPE)) == GObject(props);
    assert GIndexOf(props, TYPE_TAG) == Some(0);
  }

  // The decimal text and the little-endian words denote the same BigInt.
  lemma BigIntAgrees(n: int)
    ensures ViaWire(BigInt(n)) == Some(Ok(GBigInt(n))) && ToGuest(BigInt(n)) == Some(GBigInt(n))
  {
    BigIntArrives(n);
    BigIntWordsExact(n);
  }

  lemma BigIntArrives(n: int)
    ensures ViaWire(BigInt(n)) == Some(Ok(GBigInt(n)))
  {
    var text := Decimal.ToDecimal(n);
    TaggedGuest(BIGINT_TYPE, BIGINT_VALUE_KEY, IStr(text));
    Decimal.ReadsBack(n);
    assert TagOf(BIGINT_TYPE) == BigIntTag;
    assert Encode(BigInt(n)) == Ok(TaggedWith(BIGINT_TYPE, BIGINT_VALUE_KEY, IStr(text)));
    assert BigIntOf(Some(GString(text))) == Ok(GBigInt(n));
  }

  lemma DateAgrees(ms: i64)
    requires -MAX_SAFE <= ms <= MAX_SAFE
    ensures ViaWire(Date(ms)) == Some(Ok(GDate(TimeClip(Finite(ms as real)))))
  {
    TaggedGuest(DATE_TYPE, DATE_EPOCH_KEY, IInt(ms));
    assert TagOf(DATE_TYPE) == DateTag;
  }

  lemma PyStreamAgrees(id: u32)
    ensures ViaWire(PyStream(id)) == Some(Ok(GStream(id))) && ToGuest(PyStream(id)) == Some(GStream(id))
  {
    TaggedGuest(PY_STREAM_TYPE, STREAM_ID_KEY, IInt(id));
    assert TagOf(PY_STREAM_TYPE) == PyStreamTag;
    assert Encode(PyStream(id)) == Ok(TaggedWith(PY_STREAM_TYPE, STREAM_ID_KEY, IInt(id)));
  }

  ghost predicate Agrees(v: JSValue) {
    ToGuest(v).Some? && ViaWire(v) == Some(Ok(ToGuest(v).value))
  }

  lemma ItemsAgree(items: seq<JSValue>, encoded: seq<Item>, built: seq<Guest>)
    requires |encoded| == |items| == |built|
    requires forall i :: 0 <= i < |items| ==>
      Encode(items[i]) == Ok(encoded[i]) && Revive(Materialize(encoded[i])) == Ok(built[i])
    ensures ReviveAll(Materialize(ISeq(encoded)).items) == Ok(built)
  {
    ReviveAllTo(Materialize(ISeq(encoded)).items, built);
  }

  lemma ArrayAgrees(items: seq<JSValue>)
    requires forall i :: 0 <= i < |items| ==> Agrees(items[i])
    ensures EncodeAll(items).Ok? && ToGuests(items).Some?
    ensures ReviveAll(Materialize(ISeq(EncodeAll(items).value)).items) == Ok(ToGuests(items).value)
  {
    ToGuestsEach(items);
    EncodeAllEach(items);
    ItemsAgree(items, EncodeAll(items).value, ToGuests(items).value);
  }

  // What `revive` makes of a tagged object, its payload being an array.
  lemma TaggedArrayRevives(props: seq<GProp>, items: seq<Guest>, revived: seq<Guest>)
    requires TagOfGuest(props) == SetTag && GGet(props, SET_VALUES_KEY) == Some(GArray(items))
    requires ReviveAll(items) == Ok(revived)
    ensures Revive(GObject(props)) == Ok(GSet(AddAll(revived)))
  {
  }

  lemma Arrives(v: JSValue, item: Item)
    requires Encode(v) == Ok(item)
    ensures ViaWire(v) == Some(Revive(Materialize(item)))
  {
  }

  lemma SetBuilt(items: seq<JSValue>)
    requires ToGuests(items).Some?
    ensures ToGuest(Set(items)) == Some(GSet(AddAll(ToGuests(items).value)))
  {
  }

  lemma ObjectBuilt(props: seq<Prop>)
    requires ToGuestProps(props).Some?
    ensures ToGuest(Object(props)) == Some(GObject(ToGuestProps(props).value))
  {
  }

  lemma SetArrives(payload: Item, built: seq<Guest>)
    requires payload.ISeq? && ReviveAll(Materialize(payload).items) == Ok(built)
    ensures Revive(Materialize(TaggedWith(SET_TYPE, SET_VALUES_KEY, payload))) == Ok(GSet(AddAll(built)))
  {
    var props := [GProp(TYPE_TAG, GString(SET_TYPE)), GProp(SET_VALUES_KEY, Materialize(payload))];
    TaggedGuest(SET_TYPE, SET_VALUES_KEY, payload);
    KnownTags();
    TaggedArrayRevives(props, Materialize(payload).items, built);
  }

  lemma SetAgrees(items: seq<JSValue>)
    requires forall i :: 0 <= i < |items| ==> Agrees(items[i])
    ensures Agrees(Set(items))
  {
    ArrayAgrees(items);
    var payload := ISeq(EncodeAll(items).value);
    SetBuilt(items);
    SetEncodes(items);
    Arrives(Set(items), TaggedWith(SET_TYPE, SET_VALUES_KEY, payload));
    SetArrives(payload, ToGuests(items).value);
  }

  // g lists what the wire makes of props.
  ghost predicate Materialized(props: seq<Prop>, g: seq<GProp>) {
    && |g| == |props|
    && forall i :: 0 <= i < |g| ==>
         && g[i].key == props[i].key
         && Encode(props[i].value).Ok? && g[i].value == Materialize(Encode(props[i].value).value)
  }

  lemma {:induction false} TagOfMaterialized(props: seq<Prop>, g: seq<GProp>)
    requires Materialized(props, g)
    ensures GIndexOf(g, TYPE_TAG) == IndexOf(props, TYPE_TAG)
    decreases |props|
  {
    if props != [] {
      TagOfMaterialized(props[..|props| - 1], g[..|props| - 1]);
    }
  }

  // Only strings materialize to strings.
  lemma StringsFromStrings(v: JSValue)
    requires Encode(v).Ok?
    ensures Materialize(Encode(v).value).GString? <==> v.Str?
    ensures v.Str? ==> Materialize(Encode(v).value) == GString(v.s)
  {
  }

  lemma ReservedMaterialized(props: seq<Prop>, g: seq<GProp>)
    requires Materialized(props, g)
    ensures ActedOn(TagOfGuest(g)) <==> Reserved(Get(props, TYPE_TAG))
  {
    TagOfMaterialized(props, g);
    var i := IndexOf(props, TYPE_TAG);
    if i.Some? {
      StringsFromStrings(props[i.value].value);
    }
  }

  lemma UntaggedRevives(g: seq<GProp>, built: seq<GProp>)
    requires !ActedOn(TagOfGuest(g)) && |g| == |built|
    requires forall i :: 0 <= i < |g| ==> g[i].key == built[i].key && Revive(g[i].value) == Ok(built[i].value)
    ensures Revive(GObject(g)) == Ok(GObject(built))
  {
    RevivePropsTo(g, built);
  }

  lemma PropsAgree(props: seq<Prop>, encoded: seq<Entry>, built: seq<GProp>)
    requires !Reserved(Get(props, TYPE_TAG)) && |encoded| == |props| == |built|
    requires forall i :: 0 <= i < |props| ==> encoded[i].key == props[i].key == built[i].key
    requires forall i :: 0 <= i < |props| ==> Encode(props[i].value) == Ok(encoded[i].value)
    requires forall i :: 0 <= i < |props| ==> Revive(Materialize(encoded[i].value)) == Ok(built[i].value)
    ensures Revive(Materialize(IMap(encoded))) == Ok(GObject(built))
  {
    var g := seq(|encoded|, i requires 0 <= i < |encoded| => GProp(encoded[i].key, Materialize(encoded[i].value)));
    assert Materialize(IMap(encoded)) == GObject(g);
    ReservedMaterialized(props, g);
    UntaggedRevives(g, built);
  }

  lemma ObjectAgrees(props: seq<Prop>)
    requires !Reserved(Get(props, TYPE_TAG)) && forall i :: 0 <= i < |props| ==> Agrees(props[i].value)
    ensures Agrees(Object(props))
  {
    ToGuestPropsEach(props);
    EncodePropsEach(props);
    var encoded, built := EncodeProps(props).value, ToGuestProps(props).value;
    forall i | 0 <= i < |props| ensures Revive(Materialize(encoded[i].value)) == Ok(built[i].value) {
      Arrives(props[i].value, encoded[i].value);
    }
    ObjectBuilt(props);
    ObjectEncodes(props);
    Arrives(Object(props), IMap(encoded));
    PropsAgree(props, encoded, built);
  }

  lemma {:induction false} UnreservedAgrees(v: JSValue)
    requires Transferable(v) && Unreserved(v)
    ensures Agrees(v)
    decreases v
  {
    match v
    case Array(items) =>
      forall i | 0 <= i < |items| ensures Agrees(items[i]) { UnreservedAgrees(items[i]); }
      ArrayAgrees(items);
    case Set(items) =>
      forall i | 0 <= i < |items| ensures Agrees(items[i]) { UnreservedAgrees(items[i]); }
      SetAgrees(items);
    case Object(props) =>
      forall i | 0 <= i < |props| ensures Agrees(props[i].value) { UnreservedAgrees(props[i].value); }
      ObjectAgrees(props);
    case Undefined => UndefinedAgrees();
    case BigInt(n) => BigIntAgrees(n);
    case Date(ms) => DateAgrees(ms);
    case PyStream(id) => PyStreamAgrees(id);
    case _ =>
  }

  // ---- disagreement ----

  lemma {:induction false} AddAllKeeps(items: seq<Guest>)
    ensures forall g :: g in AddAll(items) ==> g in items
    ensures forall g :: g in items && !Primitive(g) ==> g in AddAll(items)
    decreases |items|
  {
    if items != [] {
      AddAllKeeps(items[..|items| - 1]);
    }
  }

  lemma {:induction false} SameKeysSameIndex(a: seq<GProp>, b: seq<GProp>, key: string)
    requires |a| == |b| && forall i :: 0 <= i < |a| ==> a[i].key == b[i].key
    ensures GIndexOf(a, key) == GIndexOf(b, key)
    decreases |a|
  {
    if a != [] {
      SameKeysSameIndex(a[..|a| - 1], b[..|b| - 1], key);
    }
  }

  lemma AddedUnreserved(all: seq<Guest>)
    requires forall i :: 0 <= i < |all| ==> GUnreserved(all[i])
    ensures GUnreserved(GSet(AddAll(all)))
  {
    AddAllKeeps(all);
    forall k | 0 <= k < |AddAll(all)| ensures GUnreserved(AddAll(all)[k]) {
      assert AddAll(all)[k] in all;
    }
  }

  // What `revive` returns never owns a tag it would act on.
  lemma {:induction false} RevivedIsUnreserved(g: Guest)
    requires Revive(g).Ok?
    ensures GUnreserved(Revive(g).value)
    ensures Revive(g).value.GString? ==> Revive(g).value == g
    decreases g, 0
  {
    match g
    case GArray(items) => RevivedAllUnreserved(items);
    case GObject(props) => RevivedObjectUnreserved(props);
    case _ =>
  }

  lemma {:induction false} RevivedObjectUnreserved(props: seq<GProp>)
    requires Revive(GObject(props)).Ok?
    ensures GUnreserved(Revive(GObject(props)).value) && !Revive(GObject(props)).value.GString?
    decreases props, 2
  {
    var i := GIndexOf(props, SET_VALUES_KEY);
    if TagOfGuest(props) == SetTag {
      if i.Some? && props[i.value].value.GArray? {
        RevivedAllUnreserved(props[i.value].value.items);
        AddedUnreserved(ReviveAll(props[i.value].value.items).value);
      }
    } else if !ActedOn(TagOfGuest(props)) {
      RevivedPropsUnreserved(props);
    }
  }

  lemma {:induction false} RevivedAllUnreserved(items: seq<Guest>)
    requires ReviveAll(items).Ok?
    ensures forall i :: 0 <= i < |ReviveAll(items).value| ==> GUnreserved(ReviveAll(items).value[i])
    decreases items, 1
  {
    if items != [] {
      RevivedAllUnreserved(items[..|items| - 1]);
      RevivedIsUnreserved(items[|items| - 1]);
    }
  }

  lemma {:induction false} RevivedPropsEach(props: seq<GProp>)
    requires ReviveProps(props).Ok?
    ensures |ReviveProps(props).value| == |props|
    ensures forall i :: 0 <= i < |props| ==>
      ReviveProps(props).value[i].key == props[i].key && Revive(props[i].value) == Ok(ReviveProps(props).value[i].value)
    decreases |props|
  {
    if props != [] {
      RevivedPropsEach(props[..|props| - 1]);
    }
  }

  lemma {:induction false} RevivedPropsUnreserved(props: seq<GProp>)
    requires ReviveProps(props).Ok? && !ActedOn(TagOfGuest(props))
    ensures GUnreserved(GObject(ReviveProps(props).value))
    decreases props, 1
  {
    var revived := ReviveProps(props).value;
    RevivedPropsEach(props);
    SameKeysSameIndex(props, revived, TYPE_TAG);
    forall i | 0 <= i < |props|
      ensures GUnreserved(revived[i].value) && (revived[i].value.GString? ==> revived[i].value == props[i].value)
    {
      RevivedIsUnreserved(props[i].value);
    }
  }

  lemma AllBuilt(items: seq<JSValue>)
    requires forall i :: 0 <= i < |items| ==> Transferable(items[i])
    ensures ToGuests(items).Some? && |ToGuests(items).value| == |items|
    ensures forall i :: 0 <= i < |items| ==> ToGuest(items[i]) == Some(ToGuests(items).value[i])
  {
    forall i | 0 <= i < |items| ensures ToGuest(items[i]).Some? { Reachable(items[i]); }
    ToGuestsEach(items);
  }

  lemma MemberKeepsReserved(all: seq<Guest>, i: nat)
    requires i < |all| && !GUnreserved(all[i])
    ensures !GUnreserved(GArray(all)) && !GUnreserved(GSet(AddAll(all)))
  {
    assert !Primitive(all[i]) && all[i] in all;
    AddAllKeeps(all);
    SomewhereReserved(AddAll(all), all[i]);
    SomewhereReserved(all, all[i]);
  }

  lemma SomewhereReserved(items: seq<Guest>, g: Guest)
    requires g in items && !GUnreserved(g)
    ensures !GUnreserved(GArray(items)) && !GUnreserved(GSet(items))
  {
    var k :| 0 <= k < |items| && items[k] == g;
  }

  lemma PropsKeepReserved(props: seq<Prop>, g: seq<GProp>)
    requires |g| == |props| && forall i :: 0 <= i < |g| ==> g[i].key == props[i].key && ToGuest(props[i].value) == Some(g[i].value)
    requires Reserved(Get(props, TYPE_TAG)) || exists i :: 0 <= i < |g| && !GUnreserved(g[i].value)
    ensures !GUnreserved(GObject(g))
  {
    TagOfDirect(props, g);
  }

  lemma {:induction false} TagOfDirect(props: seq<Prop>, g: seq<GProp>)
    requires |g| == |props| && forall i :: 0 <= i < |g| ==> g[i].key == props[i].key && ToGuest(props[i].value) == Some(g[i].value)
    ensures GIndexOf(g, TYPE_TAG) == IndexOf(props, TYPE_TAG)
    decreases |props|
  {
    if props != [] {
      TagOfDirect(props[..|props| - 1], g[..|props| - 1]);
    }
  }

  // The direct route keeps a reserved tag wherever it is.
  lemma {:induction false} ReservedIsKept(v: JSValue)
    requires Transferable(v) && !Unreserved(v)
    ensures ToGuest(v).Some? && !GUnreserved(ToGuest(v).value)
    decreases v
  {
    match v
    case Array(items) =>
      var i :| 0 <= i < |items| && !Unreserved(items[i]);
      ReservedIsKept(items[i]);
      AllBuilt(items);
      MemberKeepsReserved(ToGuests(items).value, i);
    case Set(items) =>
      var i :| 0 <= i < |items| && !Unreserved(items[i]);
      ReservedIsKept(items[i]);
      AllBuilt(items);
      MemberKeepsReserved(ToGuests(items).value, i);
    case Object(props) =>
      forall i | 0 <= i < |props| ensures ToGuest(props[i].value).Some? { Reachable(props[i].value); }
      ToGuestPropsEach(props);
      var g := ToGuestProps(props).value;
      if !Reserved(Get(props, TYPE_TAG)) {
        var i :| 0 <= i < |props| && !Unreserved(props[i].value);
        ReservedIsKept(props[i].value);
        assert !GUnreserved(g[i].value);
      }
      PropsKeepReserved(props, g);
    case _ =>
  }

  // Both routes denote the same guest value if and only if nothing inside is reserved.
  lemma RoutesAgreeExactly(v: JSValue)
    requires Transferable(v)
    ensures Agrees(v) <==> Unreserved(v)
  {
    if Unreserved(v) {
      UnreservedAgrees(v);
    } else {
      ReservedIsKept(v);
      Reachable(v);
      EncodesUnlessFunction(v);
      if Revive(Materialize(Encode(v).value)).Ok? {
        RevivedIsUnreserved(Materialize(Encode(v).value));
      }
    }
  }
}
