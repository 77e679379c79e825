// Data that goes to Python and back unchanged, and at the same price in both directions.
module PlainRoundTrip {
  import opened Wrappers
  import opened JsValue
  import opened PythonValues
  import opened Budget
  import F = FromJsBudget
  import T = ToJsBudget

  // A BigInt that an i64 could hold comes back as an integer, an object that Python takes for
  // a tagged value does not come back as an object, and Python cannot send a JavaScript
  // stream back at all.
  predicate Plain(v: JSValue)
    decreases v, 0
  {
    match v
    case BigInt(n) => !InI64(n)
    case Array(items) => PlainItems(items)
    case Object(props) => Classify(props).AsDict? && PlainProps(props)
    case JsStream(_) => false
    case PyStream(_) => false
    case _ => true
  }

  predicate PlainItems(items: seq<JSValue>)
    decreases items, 1
  {
    items == [] || (PlainItems(items[..|items| - 1]) && Plain(items[|items| - 1]))
  }

  predicate PlainProps(props: seq<Prop>)
    decreases props, 1
  {
    props == [] || (PlainProps(props[..|props| - 1]) && Plain(props[|props| - 1].value))
  }

  // Python sets have no order, so sets are left out here.  Keys are distinct, as in any
  // IndexMap.
  predicate Ordered(v: JSValue)
    decreases v, 0
  {
    match v
    case Array(items) => OrderedItems(items)
    case Object(props) => OrderedProps(props)
    case Set(_) => false
    case _ => true
  }

  predicate OrderedItems(items: seq<JSValue>)
    decreases items, 1
  {
    items == [] || (OrderedItems(items[..|items| - 1]) && Ordered(items[|items| - 1]))
  }

  predicate OrderedProps(props: seq<Prop>)
    decreases props, 1
  {
    props == [] || var last := props[|props| - 1];
    OrderedProps(props[..|props| - 1]) && !HasKey(props[..|props| - 1], last.key) && Ordered(last.value)
  }

  // Python keeps the keys of an object in order.
  ghost predicate SameKeys(entries: seq<PyEntry>, props: seq<Prop>) {
    |entries| == |props| && forall i :: 0 <= i < |props| ==> entries[i].key == StrKey(props[i].key)
  }

  lemma DictAppends(entries: seq<PyEntry>, props: seq<Prop>, key: string, p: PyValue)
    requires SameKeys(entries, props) && !HasKey(props, key)
    ensures PyDictSet(entries, key, p) == entries + [PyEntry(StrKey(key), p)]
  {
    forall i | 0 <= i < |entries| ensures entries[i].key != StrKey(key) {
      assert props[i].key != key;
    }
  }

  // The dict made of an object grows by one entry for each property.
  lemma {:induction false} DictGrows(props: seq<Prop>)
    requires OrderedProps(props)
    ensures SameKeys(F.ImageProps(props), props)
    ensures props != [] ==> var last := props[|props| - 1];
      F.ImageProps(props) == F.ImageProps(props[..|props| - 1]) + [PyEntry(StrKey(last.key), F.Image(last.value))]
    decreases |props|
  {
    if props != [] {
      var front, last := props[..|props| - 1], props[|props| - 1];
      DictGrows(front);
      DictAppends(F.ImageProps(front), front, last.key, F.Image(last.value));
    }
  }

  // The object made of that dict, again one property at a time.
  lemma {:induction false} ShapeKeepsKeys(entries: seq<PyEntry>, props: seq<Prop>)
    requires SameKeys(entries, props) && OrderedProps(props)
    ensures |T.ShapeEntries(entries)| == |props|
    ensures forall i :: 0 <= i < |props| ==> T.ShapeEntries(entries)[i].key == props[i].key
    decreases |props|
  {
    if props != [] {
      var n := |props| - 1;
      ShapeKeepsKeys(entries[..n], props[..n]);
      InsertAppends(T.ShapeEntries(entries[..n]), props[..n], props[n].key, T.Shape(entries[n].value));
    }
  }

  lemma InsertAppends(shaped: seq<Prop>, props: seq<Prop>, key: string, value: JSValue)
    requires |shaped| == |props| && forall i :: 0 <= i < |props| ==> shaped[i].key == props[i].key
    requires !HasKey(props, key)
    ensures Insert(shaped, key, value) == shaped + [Prop(key, value)]
  {
    forall i | 0 <= i < |shaped| ensures shaped[i].key != key {
      assert props[i].key != key;
    }
  }

  lemma Snoc<X>(front: seq<X>, last: X, whole: seq<X>)
    requires whole != []
    ensures front + [last] == whole <==> front == whole[..|whole| - 1] && last == whole[|whole| - 1]
  {
    assert whole == whole[..|whole| - 1] + [whole[|whole| - 1]];
    assert (front + [last])[..|front|] == front && (front + [last])[|front|] == last;
  }

  lemma BackGrows(props: seq<Prop>)
    requires OrderedProps(props) && props != []
    ensures var n := |props| - 1;
      T.ShapeEntries(F.ImageProps(props)) == props <==>
      T.ShapeEntries(F.ImageProps(props[..n])) == props[..n] && T.Shape(F.Image(props[n].value)) == props[n].value
  {
    var n, last := |props| - 1, props[|props| - 1];
    DictGrows(props);
    DictGrows(props[..n]);
    var front := F.ImageProps(props[..n]);
    assert F.ImageProps(props)[..n] == front;
    ShapeKeepsKeys(front, props[..n]);
    InsertAppends(T.ShapeEntries(front), props[..n], last.key, T.Shape(F.Image(last.value)));
    Snoc(T.ShapeEntries(front), Prop(last.key, T.Shape(F.Image(last.value))), props);
  }

  lemma ListGrows(items: seq<JSValue>)
    requires items != []
    ensures var n := |items| - 1;
      F.ImageAll(items)[..|F.ImageAll(items)| - 1] == F.ImageAll(items[..n])
      && (T.ShapeAll(F.ImageAll(items)) == items <==>
          T.ShapeAll(F.ImageAll(items[..n])) == items[..n] && T.Shape(F.Image(items[n])) == items[n])
  {
    var n := |items| - 1;
    var front := F.ImageAll(items[..n]);
    assert F.ImageAll(items)[..|F.ImageAll(items)| - 1] == front;
    Snoc(T.ShapeAll(front), T.Shape(F.Image(items[n])), items);
  }

  lemma TakenForSomethingElse(props: seq<Prop>)
    requires !Classify(props).AsDict?
    ensures !T.Shape(F.Image(Object(props))).Object?
  {
  }

  lemma TakenForADict(props: seq<Prop>)
    requires Classify(props).AsDict?
    ensures T.Shape(F.Image(Object(props))) == Object(T.ShapeEntries(F.ImageProps(props)))
  {
  }

  lemma ListThereAndBack(items: seq<JSValue>)
    ensures T.Shape(F.Image(Array(items))) == Array(T.ShapeAll(F.ImageAll(items)))
  {
  }

  lemma LeafComesBack(v: JSValue)
    requires !v.Array? && !v.Object? && !v.Set?
    ensures T.Shape(F.Image(v)) == v <==> Plain(v)
  {
  }

  lemma ImageGrows(items: seq<JSValue>)
    requires items != []
    ensures F.ImageAll(items) == F.ImageAll(items[..|items| - 1]) + [F.Image(items[|items| - 1])]
  {
  }

  lemma NeedGrows(front: seq<PyValue>, last: PyValue)
    ensures T.NeedOfAll(front + [last]) == Both(T.NeedOfAll(front), T.NeedOf(last))
  {
    assert (front + [last])[..|front|] == front;
  }

  // Converting there and back gives the same value exactly for plain data.
  lemma {:induction false} ComesBackIffPlain(v: JSValue)
    requires Ordered(v)
    ensures T.Shape(F.Image(v)) == v <==> Plain(v)
    decreases v, 0
  {
    match v
    case Array(items) =>
      ListThereAndBack(items);
      ListComesBack(items);
    case Object(props) =>
      if Classify(props).AsDict? {
        TakenForADict(props);
        PropsComeBack(props);
      } else {
        TakenForSomethingElse(props);
      }
    case _ => LeafComesBack(v);
  }

  lemma {:induction false} ListComesBack(items: seq<JSValue>)
    requires OrderedItems(items)
    ensures T.ShapeAll(F.ImageAll(items)) == items <==> PlainItems(items)
    decreases items, 1
  {
    if items != [] {
      var n := |items| - 1;
      ListComesBack(items[..n]);
      ComesBackIffPlain(items[n]);
      ListGrows(items);
    }
  }

  lemma {:induction false} PropsComeBack(props: seq<Prop>)
    requires OrderedProps(props)
    ensures T.ShapeEntries(F.ImageProps(props)) == props <==> PlainProps(props)
    decreases props, 1
  {
    if props != [] {
      var n := |props| - 1;
      PropsComeBack(props[..n]);
      ComesBackIffPlain(props[n].value);
      BackGrows(props);
    }
  }

  // ---- the same price ----

  // Plain data nests as deep and costs as much on the way back as on the way in.
  lemma {:induction false} PlainCostsTheSame(v: JSValue, handle: bool)
    requires Ordered(v) && Plain(v)
    ensures T.NeedOf(F.Image(v)) == F.NeedOf(v, handle).(fine := true)
    decreases v, 1
  {
    match v
    case Array(items) =>
      ListCostsTheSame(items, handle);
    case Object(props) => ObjectCostsTheSame(v, handle);
    case _ =>
  }

  lemma {:induction false} ObjectCostsTheSame(v: JSValue, handle: bool)
    requires v.Object? && Ordered(v) && Plain(v)
    ensures T.NeedOf(F.Image(v)) == F.NeedOf(v, handle).(fine := true)
    decreases v, 0
  {
    PropsCostTheSame(v.props, handle);
    DictGrows(v.props);
    assert F.ObjectNeed(v.props, handle) == F.NeedOfProps(v.props, handle);
  }

  lemma {:induction false} ListCostsTheSame(items: seq<JSValue>, handle: bool)
    requires OrderedItems(items) && PlainItems(items)
    ensures |F.ImageAll(items)| == |items|
    ensures T.NeedOfAll(F.ImageAll(items)) == F.NeedOfAll(items, handle).(fine := true)
    decreases items, 0
  {
    if items != [] {
      var n := |items| - 1;
      ListCostsTheSame(items[..n], handle);
      PlainCostsTheSame(items[n], handle);
      ImageGrows(items);
      NeedGrows(F.ImageAll(items[..n]), F.Image(items[n]));
    }
  }

  lemma {:induction false} PropsCostTheSame(props: seq<Prop>, handle: bool)
    requires OrderedProps(props) && PlainProps(props)
    ensures T.NeedOfEntries(F.ImageProps(props)) == F.NeedOfProps(props, handle).(fine := true)
    decreases props, 0
  {
    if props != [] {
      var n := |props| - 1;
      PropsCostTheSame(props[..n], handle);
      PlainCostsTheSame(props[n].value, handle);
      DictGrows(props);
      DictGrows(props[..n]);
      assert F.ImageProps(props)[..n] == F.ImageProps(props[..n]);
    }
  }

  // Plain data that one direction accepts under some limits comes back unchanged under the
  // same limits, and both directions leave the meter at the same reading.
  lemma PlainRoundTripIsSymmetric(v: JSValue, handle: bool, m: Meter)
    requires Ordered(v) && Plain(v) && F.NeedOf(v, handle).fine && MeterOk(m)
    ensures FromJs(v, handle, m).0.Ok? <==> ToJs(F.Image(v), m).0.Ok?
    ensures FromJs(v, handle, m).0.Ok? ==>
      && FromJs(v, handle, m).0.value == F.Image(v)
      && ToJs(F.Image(v), m).0 == Ok(v)
      && ToJs(F.Image(v), m).1.bytes == FromJs(v, handle, m).1.bytes
      && (m.depth + F.NeedOf(v, handle).height <= USIZE_MAX ==> ToJs(F.Image(v), m).1 == FromJs(v, handle, m).1)
  {
    F.ConvertsIffItFits(v, handle, m);
    F.YieldsImage(v, handle, m);
    T.ConvertsIffItFits(F.Image(v), m);
    T.YieldsShape(F.Image(v), m);
    PlainCostsTheSame(v, handle);
    ComesBackIffPlain(v);
  }
}
