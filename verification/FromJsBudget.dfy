// When a JavaScript value converts to Python, and to what.
module FromJsBudget {
  import opened Wrappers
  import opened JsValue
  import opened PythonValues
  import opened Budget

  // The Python value that a convertible JavaScript value stands for.
  function Image(v: JSValue): PyValue
    decreases v, 0
  {
    match v
    case Undefined => PyUndefined
    case Null => PyNone
    case Bool(b) => PyBool(b)
    case Int(i) => PyInt(i)
    case BigInt(n) => PyInt(n)
    case Float(f) => PyFloat(f)
    case Str(s) => PyStr(s)
    case Bytes(bytes) => PyBytes(bytes)
    case Array(items) => PyList(ImageAll(items))
    case Set(items) => PySet(ImageSet(items))
    case Object(props) =>
      (match Classify(props)
       case AsUndefined => PyUndefined
       case AsDate(Some(ms)) => if InI64(ms) then PyDatetime(ms) else PyOther
       case AsBigInt(Some(n)) => PyInt(n)
       case AsSet(at) => PySet(ImageSet(props[at].value.items))
       case AsDict => PyDict(ImageProps(props))
       case _ => PyOther)
    case Date(ms) => PyDatetime(ms)
    case Function(id) => PyFunction(id)
    case JsStream(id) => PyJsStream(id)
    case PyStream(_) => PyOther
  }

  function ImageAll(items: seq<JSValue>): seq<PyValue>
    decreases items, 1
  {
    if items == [] then [] else ImageAll(items[..|items| - 1]) + [Image(items[|items| - 1])]
  }

  function ImageSet(items: seq<JSValue>): seq<PyValue>
    decreases items, 1
  {
    if items == [] then [] else PySetAdd(ImageSet(items[..|items| - 1]), Image(items[|items| - 1]))
  }

  function ImageProps(props: seq<Prop>): seq<PyEntry>
    decreases props, 1
  {
    if props == [] then []
    else
      var last := props[|props| - 1];
      PyDictSet(ImageProps(props[..|props| - 1]), last.key, Image(last.value))
  }

  // ---- what a conversion needs, read off the value ----

  // Proxies need a runtime handle, set members must be hashable, dates in range, tagged
  // payloads readable, and a Python stream never comes back.
  function NeedOf(v: JSValue, handle: bool): Need
    decreases v, 1
  {
    Nested(InnerNeed(v, handle))
  }

  function InnerNeed(v: JSValue, handle: bool): Need
    decreases v, 0
  {
    match v
    case Undefined => NOTHING
    case Null => Need(true, 0, 4)
    case Bool(_) => Need(true, 0, 1)
    case Int(_) => Need(true, 0, 8)
    case BigInt(n) => Need(true, 0, MagnitudeLen(Abs(n)))
    case Float(_) => Need(true, 0, 8)
    case Str(s) => Need(true, 0, Utf8Len(s) + 16)
    case Bytes(bytes) => Need(true, 0, |bytes|)
    case Array(items) => Costing(16 + 8 * |items|, NeedOfAll(items, handle))
    case Set(items) => Costing(24 + 8 * |items|, NeedOfSet(items, handle))
    case Object(props) => Costing(24 + 16 * |props|, ObjectNeed(props, handle))
    case Date(ms) => Need(DateInRange(ms), 0, 16)
    case Function(_) => Need(handle, 0, 8)
    case JsStream(_) => Need(handle, 0, 8)
    case PyStream(_) => Need(false, 0, 0)
  }

  function ObjectNeed(props: seq<Prop>, handle: bool): Need
    decreases props, 3
  {
    match Classify(props)
    case AsUndefined => NOTHING
    case AsDate(ms) => Need(ms.Some? && DateInRange(ms.value), 0, 0)
    case AsBigInt(n) => Need(n.Some?, 0, 0)
    case AsSet(at) => NeedOfSet(props[at].value.items, handle)
    case AsDict => NeedOfProps(props, handle)
  }

  function NeedOfAll(items: seq<JSValue>, handle: bool): Need
    decreases items, 2
  {
    if items == [] then NOTHING
    else Both(NeedOfAll(items[..|items| - 1], handle), NeedOf(items[|items| - 1], handle))
  }

  function NeedOfSet(items: seq<JSValue>, handle: bool): Need
    decreases items, 2
  {
    if items == [] then NOTHING
    else Both(NeedOfSet(items[..|items| - 1], handle), MemberNeed(items[|items| - 1], handle))
  }

  function MemberNeed(v: JSValue, handle: bool): Need
    decreases v, 2
  {
    var need := NeedOf(v, handle);
    need.(fine := need.fine && Hashable(Image(v)))
  }

  function NeedOfProps(props: seq<Prop>, handle: bool): Need
    decreases props, 2
  {
    if props == [] then NOTHING
    else Both(NeedOfProps(props[..|props| - 1], handle), NeedOfEntry(props[|props| - 1], handle))
  }

  function NeedOfEntry(prop: Prop, handle: bool): Need
    decreases prop, 2
  {
    Costing(Utf8Len(prop.key) + 8, NeedOf(prop.value, handle))
  }

  // ---- the result is the value's image ----

  lemma {:induction false} YieldsImage(v: JSValue, handle: bool, m: Meter)
    ensures FromJs(v, handle, m).0.Ok? ==> FromJs(v, handle, m).0.value == Image(v)
    decreases v, 2
  {
    var entered := Entered(m).0;
    match v {
      case Array(items) => AllYieldImages(items, handle, Pay(entered, 16, Sat(8 * |items|)).0);
      case Set(items) => SetYieldsImage(items, handle, Pay(entered, 24, Sat(8 * |items|)).0);
      case Object(props) => ObjectYieldsImage(v, handle, Pay(entered, 24, Sat(16 * |props|)).0);
      case _ => LeafYieldsImage(v, handle, entered);
    }
  }

  lemma LeafYieldsImage(v: JSValue, handle: bool, m: Meter)
    requires !v.Array? && !v.Set? && !v.Object?
    ensures FromJsInner(v, handle, m).0.Ok? ==> FromJsInner(v, handle, m).0.value == Image(v)
  {
  }

  lemma {:induction false} ObjectYieldsImage(v: JSValue, handle: bool, m: Meter)
    requires v.Object?
    ensures FromJsObject(v.props, handle, m).0.Ok? ==> FromJsObject(v.props, handle, m).0.value == Image(v)
    decreases v, 1
  {
    match Classify(v.props) {
      case AsSet(at) => SetYieldsImage(v.props[at].value.items, handle, m);
      case AsDict => PropsYieldImage(v.props, handle, m);
      case _ =>
    }
  }

  lemma {:induction false} AllYieldImages(items: seq<JSValue>, handle: bool, m: Meter)
    ensures FromJsAll(items, handle, m).0.Ok? ==> FromJsAll(items, handle, m).0.value == ImageAll(items)
    decreases items, 0
  {
    if items != [] {
      var front := items[..|items| - 1];
      AllYieldImages(front, handle, m);
      YieldsImage(items[|items| - 1], handle, FromJsAll(front, handle, m).1);
    }
  }

  lemma {:induction false} SetYieldsImage(items: seq<JSValue>, handle: bool, m: Meter)
    ensures FromJsSet(items, handle, m).0.Ok? ==> FromJsSet(items, handle, m).0.value == ImageSet(items)
    decreases items, 0
  {
    if items != [] {
      var front := items[..|items| - 1];
      SetYieldsImage(front, handle, m);
      YieldsImage(items[|items| - 1], handle, FromJsSet(front, handle, m).1);
    }
  }

  lemma {:induction false} PropsYieldImage(props: seq<Prop>, handle: bool, m: Meter)
    ensures FromJsProps(props, handle, m).0.Ok? ==> FromJsProps(props, handle, m).0.value == ImageProps(props)
    decreases props, 0
  {
    if props != [] {
      var front, last := props[..|props| - 1], props[|props| - 1];
      PropsYieldImage(front, handle, m);
      YieldsImage(last.value, handle, Pay(FromJsProps(front, handle, m).1, Utf8Len(last.key), 8).0);
    }
  }

  // ---- the budget is exact ----

  // A value converts exactly when it is convertible and its height and cost fit the meter.
  lemma {:induction false} ConvertsIffItFits(v: JSValue, handle: bool, m: Meter)
    requires MeterOk(m)
    ensures Exact(m, NeedOf(v, handle), FromJs(v, handle, m).0.Ok?, FromJs(v, handle, m).1)
    decreases v, 4
  {
    var (entered, ok) := Entered(m);
    var (r, m1) := FromJsInner(v, handle, entered);
    if ok {
      InnerFits(v, handle, entered);
    }
    ExactInside(m, InnerNeed(v, handle), r.Ok?, m1);
  }

  lemma {:induction false} InnerFits(v: JSValue, handle: bool, m: Meter)
    requires MeterOk(m)
    ensures Exact(m, InnerNeed(v, handle), FromJsInner(v, handle, m).0.Ok?, FromJsInner(v, handle, m).1)
    decreases v, 3
  {
    match v {
      case Array(items) => ArrayFits(v, handle, m);
      case Set(items) => JsSetFits(v, handle, m);
      case Object(props) => ObjectFits(v, handle, m);
      case Str(_) => TextFits(v, handle, m);
      case _ => LeafFits(v, handle, m);
    }
  }

  lemma TextFits(v: JSValue, handle: bool, m: Meter)
    requires MeterOk(m) && v.Str?
    ensures Exact(m, InnerNeed(v, handle), FromJsInner(v, handle, m).0.Ok?, FromJsInner(v, handle, m).1)
  {
    ExactAfterPaying(m, Utf8Len(v.s), 16, NOTHING, true, FromJsInner(v, handle, m).1);
  }

  lemma LeafFits(v: JSValue, handle: bool, m: Meter)
    requires MeterOk(m) && !v.Array? && !v.Set? && !v.Object? && !v.Str?
    ensures Exact(m, InnerNeed(v, handle), FromJsInner(v, handle, m).0.Ok?, FromJsInner(v, handle, m).1)
  {
  }

  lemma {:induction false} ArrayFits(v: JSValue, handle: bool, m: Meter)
    requires MeterOk(m) && v.Array?
    ensures Exact(m, InnerNeed(v, handle), FromJsInner(v, handle, m).0.Ok?, FromJsInner(v, handle, m).1)
    decreases v, 2
  {
    var n := |v.items|;
    var (m1, ok) := Pay(m, 16, Sat(8 * n));
    var (r, m2) := FromJsAll(v.items, handle, m1);
    if ok {
      ListFits(v.items, handle, m1);
    }
    ExactAfterPaying(m, 16, 8 * n, NeedOfAll(v.items, handle), r.Ok?, m2);
  }

  lemma {:induction false} JsSetFits(v: JSValue, handle: bool, m: Meter)
    requires MeterOk(m) && v.Set?
    ensures Exact(m, InnerNeed(v, handle), FromJsInner(v, handle, m).0.Ok?, FromJsInner(v, handle, m).1)
    decreases v, 2
  {
    var n := |v.items|;
    var (m1, ok) := Pay(m, 24, Sat(8 * n));
    var (r, m2) := FromJsSet(v.items, handle, m1);
    if ok {
      SetFits(v.items, handle, m1);
    }
    ExactAfterPaying(m, 24, 8 * n, NeedOfSet(v.items, handle), r.Ok?, m2);
  }

  lemma {:induction false} ObjectFits(v: JSValue, handle: bool, m: Meter)
    requires MeterOk(m) && v.Object?
    ensures Exact(m, InnerNeed(v, handle), FromJsInner(v, handle, m).0.Ok?, FromJsInner(v, handle, m).1)
    decreases v, 2
  {
    var n := |v.props|;
    var (m1, ok) := Pay(m, 24, Sat(16 * n));
    var (r, m2) := FromJsObject(v.props, handle, m1);
    if ok {
      ContentsFit(v, handle, m1);
    }
    ExactAfterPaying(m, 24, 16 * n, ObjectNeed(v.props, handle), r.Ok?, m2);
  }

  lemma {:induction false} ContentsFit(v: JSValue, handle: bool, m: Meter)
    requires MeterOk(m) && v.Object?
    ensures Exact(m, ObjectNeed(v.props, handle), FromJsObject(v.props, handle, m).0.Ok?, FromJsObject(v.props, handle, m).1)
    decreases v, 1
  {
    match Classify(v.props) {
      case AsSet(at) => SetFits(v.props[at].value.items, handle, m);
      case AsDict => PropsFit(v.props, handle, m);
      case _ =>
    }
  }

  // One meter for a whole list: every height must fit on its own, the costs together.
  lemma {:induction false} ListFits(items: seq<JSValue>, handle: bool, m: Meter)
    requires MeterOk(m)
    ensures Exact(m, NeedOfAll(items, handle), FromJsAll(items, handle, m).0.Ok?, FromJsAll(items, handle, m).1)
    decreases items, 0
  {
    if items != [] {
      var front, last := items[..|items| - 1], items[|items| - 1];
      ListFits(front, handle, m);
      var (r1, m1) := FromJsAll(front, handle, m);
      if r1.Ok? {
        SpentIsOk(m, NeedOfAll(front, handle), m1);
        ConvertsIffItFits(last, handle, m1);
      }
      var (r2, m2) := FromJs(last, handle, m1);
      ExactInTurn(m, NeedOfAll(front, handle), r1.Ok?, m1, NeedOf(last, handle), r2.Ok?, m2);
    }
  }

  lemma {:induction false} SetFits(items: seq<JSValue>, handle: bool, m: Meter)
    requires MeterOk(m)
    ensures Exact(m, NeedOfSet(items, handle), FromJsSet(items, handle, m).0.Ok?, FromJsSet(items, handle, m).1)
    decreases items, 0
  {
    if items != [] {
      var front, last := items[..|items| - 1], items[|items| - 1];
      SetFits(front, handle, m);
      var (r1, m1) := FromJsSet(front, handle, m);
      var (r2, m2) := FromJs(last, handle, m1);
      if r1.Ok? {
        SpentIsOk(m, NeedOfSet(front, handle), m1);
        ConvertsIffItFits(last, handle, m1);
        YieldsImage(last, handle, m1);
      }
      ExactInTurn(m, NeedOfSet(front, handle), r1.Ok?, m1,
                  MemberNeed(last, handle), r2.Ok? && Hashable(r2.value), m2);
    }
  }

  lemma {:induction false} PropsFit(props: seq<Prop>, handle: bool, m: Meter)
    requires MeterOk(m)
    ensures Exact(m, NeedOfProps(props, handle), FromJsProps(props, handle, m).0.Ok?, FromJsProps(props, handle, m).1)
    decreases props, 0
  {
    if props != [] {
      var front, last := props[..|props| - 1], props[|props| - 1];
      PropsFit(front, handle, m);
      var (r1, m1) := FromJsProps(front, handle, m);
      if r1.Ok? {
        SpentIsOk(m, NeedOfProps(front, handle), m1);
        EntryFits(last, handle, m1);
      }
      var (r2, m2) := EntryFromJs(last, handle, m1);
      ExactInTurn(m, NeedOfProps(front, handle), r1.Ok?, m1, NeedOfEntry(last, handle), r2.Ok?, m2);
    }
  }

  lemma {:induction false} EntryFits(prop: Prop, handle: bool, m: Meter)
    requires MeterOk(m)
    ensures Exact(m, NeedOfEntry(prop, handle), EntryFromJs(prop, handle, m).0.Ok?, EntryFromJs(prop, handle, m).1)
    decreases prop, 0
  {
    var cost := Utf8Len(prop.key);
    var (m1, ok) := Pay(m, cost, 8);
    var (r, m2) := FromJs(prop.value, handle, m1);
    if ok {
      ConvertsIffItFits(prop.value, handle, m1);
    }
    ExactAfterPaying(m, cost, 8, NeedOf(prop.value, handle), r.Ok?, m2);
  }

  lemma {:induction false} EachIsWithin(items: seq<JSValue>, handle: bool, i: nat)
    requires i < |items|
    ensures NeedOf(items[i], handle).height <= NeedOfAll(items, handle).height
    ensures NeedOfAll(items, handle).fine ==> NeedOf(items[i], handle).fine
    decreases |items|
  {
    if i < |items| - 1 {
      EachIsWithin(items[..|items| - 1], handle, i);
    }
  }

  lemma {:induction false} SomeIsDeepest(items: seq<JSValue>, handle: bool) returns (i: nat)
    requires items != []
    ensures i < |items| && NeedOf(items[i], handle).height == NeedOfAll(items, handle).height
    decreases |items|
  {
    i := |items| - 1;
    var front := items[..i];
    if front != [] && NeedOf(items[i], handle).height < NeedOfAll(front, handle).height {
      i := SomeIsDeepest(front, handle);
    }
  }

  lemma {:induction false} SomeIsUnfit(items: seq<JSValue>, handle: bool) returns (i: nat)
    requires !NeedOfAll(items, handle).fine
    ensures i < |items| && !NeedOf(items[i], handle).fine
    decreases |items|
  {
    i := |items| - 1;
    if NeedOf(items[i], handle).fine {
      i := SomeIsUnfit(items[..i], handle);
    }
  }

  lemma NeedOfEach(items: seq<JSValue>, handle: bool, limit: nat)
    ensures NeedOfAll(items, handle).fine <==> forall i :: 0 <= i < |items| ==> NeedOf(items[i], handle).fine
    ensures Sat(NeedOfAll(items, handle).height) <= limit <==>
      forall i :: 0 <= i < |items| ==> Sat(NeedOf(items[i], handle).height) <= limit
  {
    forall i | 0 <= i < |items|
      ensures NeedOf(items[i], handle).height <= NeedOfAll(items, handle).height
      ensures NeedOfAll(items, handle).fine ==> NeedOf(items[i], handle).fine
    {
      EachIsWithin(items, handle, i);
    }
    if !NeedOfAll(items, handle).fine {
      var i := SomeIsUnfit(items, handle);
    }
    if items != [] {
      var i := SomeIsDeepest(items, handle);
    }
  }

  // The arguments of one guest call share one fresh meter.
  lemma CallArgumentsFit(args: seq<JSValue>, handle: bool, maxDepth: nat, maxBytes: nat)
    requires maxDepth <= USIZE_MAX && maxBytes <= USIZE_MAX
    ensures var (r, m) := FromJsAll(args, handle, Meter(maxDepth, maxBytes, 0, 0));
      && (r.Ok? <==>
          && (forall i :: 0 <= i < |args| ==> NeedOf(args[i], handle).fine)
          && (forall i :: 0 <= i < |args| ==> Sat(NeedOf(args[i], handle).height) <= maxDepth)
          && Sat(NeedOfAll(args, handle).cost) <= maxBytes)
      && (r.Ok? ==> r.value == ImageAll(args) && m == Meter(maxDepth, maxBytes, 0, Sat(NeedOfAll(args, handle).cost)))
  {
    ListFits(args, handle, Meter(maxDepth, maxBytes, 0, 0));
    AllYieldImages(args, handle, Meter(maxDepth, maxBytes, 0, 0));
    NeedOfEach(args, handle, maxDepth);
  }
}
