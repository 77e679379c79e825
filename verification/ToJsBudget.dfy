// When a Python value converts to JavaScript, and to what.
module ToJsBudget {
  import opened Wrappers
  import opened JsValue
  import opened PythonValues
  import opened Budget

  // ---- what a conversion needs, read off the value ----

  function NeedOf(p: PyValue): Need
    decreases p, 1
  {
    Nested(InnerNeed(p))
  }

  function InnerNeed(p: PyValue): Need
    decreases p, 0
  {
    match p
    case PyNone => Need(true, 0, 4)
    case PyUndefined => NOTHING
    case PyStreamSource(_) => Need(true, 0, 4)
    case PyBytes(bytes) => Need(true, 0, |bytes|)
    case PyList(items) => Costing(16 + 8 * |items|, NeedOfAll(items))
    case PySet(items) => Costing(24 + 8 * |items|, NeedOfAll(items))
    case PyDict(entries) => Costing(24 + 16 * |entries|, NeedOfEntries(entries))
    case PyDatetime(_) => Need(true, 0, 16)
    case PyBool(_) => Need(true, 0, 1)
    case PyInt(n) => Need(true, 0, IntCost(n))
    case PyFloat(_) => Need(true, 0, 8)
    case PyStr(s) => Need(true, 0, Utf8Len(s) + 16)
    case PyFunction(_) => Need(true, 0, 8)
    case PyJsStream(_) => Need(false, 0, 0)
    case PyOther => Need(false, 0, 0)
  }

  function NeedOfAll(items: seq<PyValue>): Need
    decreases items, 2
  {
    if items == [] then NOTHING else Both(NeedOfAll(items[..|items| - 1]), NeedOf(items[|items| - 1]))
  }

  function NeedOfEntries(entries: seq<PyEntry>): Need
    decreases entries, 2
  {
    if entries == [] then NOTHING
    else Both(NeedOfEntries(entries[..|entries| - 1]), NeedOfEntry(entries[|entries| - 1]))
  }

  // A key that is not a string cannot be converted.
  function NeedOfEntry(entry: PyEntry): Need
    decreases entry, 2
  {
    assert entry.value < entry;
    var need := NeedOf(entry.value);
    if entry.key.OtherKey? then need.(fine := false) else Costing(Utf8Len(entry.key.s) + 8, need)
  }

  // The JavaScript value that a supported Python value stands for.
  function Shape(p: PyValue): JSValue
    decreases p, 0
  {
    match p
    case PyNone => Null
    case PyStreamSource(id) => PyStream(id)
    case PyBytes(bytes) => Bytes(bytes)
    case PyList(items) => Array(ShapeAll(items))
    case PySet(items) => Set(ShapeAll(items))
    case PyDict(entries) => Object(ShapeEntries(entries))
    case PyDatetime(ms) => Date(ms)
    case PyBool(b) => Bool(b)
    case PyInt(n) => IntToJs(n)
    case PyFloat(f) => Float(f)
    case PyStr(s) => Str(s)
    case PyFunction(id) => Function(id)
    case _ => Undefined
  }

  function ShapeAll(items: seq<PyValue>): seq<JSValue>
    decreases items, 1
  {
    if items == [] then [] else ShapeAll(items[..|items| - 1]) + [Shape(items[|items| - 1])]
  }

  function ShapeEntries(entries: seq<PyEntry>): seq<Prop>
    decreases entries, 1
  {
    if entries == [] then []
    else
      var last := entries[|entries| - 1];
      assert last.value < last;
      var front := ShapeEntries(entries[..|entries| - 1]);
      if last.key.StrKey? then Insert(front, last.key.s, Shape(last.value)) else front
  }

  // ---- the budget is exact ----

  // A value converts exactly when it is supported and its height and cost fit the meter.
  lemma {:induction false} ConvertsIffItFits(p: PyValue, m: Meter)
    requires MeterOk(m)
    ensures Exact(m, NeedOf(p), ToJs(p, m).0.Ok?, ToJs(p, m).1)
    decreases p, 2
  {
    var (entered, ok) := Entered(m);
    if ok {
      InnerFits(p, entered);
    }
    ExactInside(m, InnerNeed(p), ToJsInner(p, entered).0.Ok?, ToJsInner(p, entered).1);
  }

  lemma {:induction false} InnerFits(p: PyValue, m: Meter)
    requires MeterOk(m)
    ensures Exact(m, InnerNeed(p), ToJsInner(p, m).0.Ok?, ToJsInner(p, m).1)
    decreases p, 1
  {
    match p {
      case PyList(_) => PyListFits(p, m);
      case PySet(_) => PySetFits(p, m);
      case PyDict(_) => DictFits(p, m);
      case PyStr(_) => TextFits(p, m);
      case _ => LeafFits(p, m);
    }
  }

  lemma TextFits(p: PyValue, m: Meter)
    requires MeterOk(m) && p.PyStr?
    ensures Exact(m, InnerNeed(p), ToJsInner(p, m).0.Ok?, ToJsInner(p, m).1)
  {
    ExactAfterPaying(m, Utf8Len(p.s), 16, NOTHING, true, ToJsInner(p, m).1);
  }

  lemma LeafFits(p: PyValue, m: Meter)
    requires MeterOk(m) && !p.PyList? && !p.PySet? && !p.PyDict? && !p.PyStr?
    ensures Exact(m, InnerNeed(p), ToJsInner(p, m).0.Ok?, ToJsInner(p, m).1)
  {
  }

  lemma {:induction false} PyListFits(p: PyValue, m: Meter)
    requires MeterOk(m) && p.PyList?
    ensures Exact(m, InnerNeed(p), ToJsInner(p, m).0.Ok?, ToJsInner(p, m).1)
    decreases p, 0
  {
    var n := |p.items|;
    var (m1, ok) := Pay(m, 16, Sat(8 * n));
    var (r, m2) := ToJsAll(p.items, m1);
    if ok {
      ListFits(p.items, m1);
    }
    ExactAfterPaying(m, 16, 8 * n, NeedOfAll(p.items), r.Ok?, m2);
  }

  lemma {:induction false} PySetFits(p: PyValue, m: Meter)
    requires MeterOk(m) && p.PySet?
    ensures Exact(m, InnerNeed(p), ToJsInner(p, m).0.Ok?, ToJsInner(p, m).1)
    decreases p, 0
  {
    var n := |p.items|;
    var (m1, ok) := Pay(m, 24, Sat(8 * n));
    var (r, m2) := ToJsAll(p.items, m1);
    if ok {
      ListFits(p.items, m1);
    }
    ExactAfterPaying(m, 24, 8 * n, NeedOfAll(p.items), r.Ok?, m2);
  }

  lemma {:induction false} DictFits(p: PyValue, m: Meter)
    requires MeterOk(m) && p.PyDict?
    ensures Exact(m, InnerNeed(p), ToJsInner(p, m).0.Ok?, ToJsInner(p, m).1)
    decreases p, 0
  {
    var n := |p.entries|;
    var (m1, ok) := Pay(m, 24, Sat(16 * n));
    var (r, m2) := ToJsEntries(p.entries, m1);
    if ok {
      EntriesFit(p.entries, m1);
    }
    ExactAfterPaying(m, 24, 16 * n, NeedOfEntries(p.entries), r.Ok?, m2);
  }

  // One meter for a whole list: every height must fit on its own, the costs together.
  lemma {:induction false} ListFits(items: seq<PyValue>, m: Meter)
    requires MeterOk(m)
    ensures Exact(m, NeedOfAll(items), ToJsAll(items, m).0.Ok?, ToJsAll(items, m).1)
    decreases items, 0
  {
    if items != [] {
      var front, last := items[..|items| - 1], items[|items| - 1];
      ListFits(front, m);
      var (r1, m1) := ToJsAll(front, m);
      if r1.Ok? {
        SpentIsOk(m, NeedOfAll(front), m1);
        ConvertsIffItFits(last, m1);
      }
      var (r2, m2) := ToJs(last, m1);
      ExactInTurn(m, NeedOfAll(front), r1.Ok?, m1, NeedOf(last), r2.Ok?, m2);
    }
  }

  lemma {:induction false} EntriesFit(entries: seq<PyEntry>, m: Meter)
    requires MeterOk(m)
    ensures Exact(m, NeedOfEntries(entries), ToJsEntries(entries, m).0.Ok?, ToJsEntries(entries, m).1)
    decreases entries, 0
  {
    if entries != [] {
      var front, last := entries[..|entries| - 1], entries[|entries| - 1];
      EntriesFit(front, m);
      var (r1, m1) := ToJsEntries(front, m);
      if r1.Ok? {
        SpentIsOk(m, NeedOfEntries(front), m1);
        EntryFits(last, m1);
      }
      var (r2, m2) := EntryToJs(last, m1);
      ExactInTurn(m, NeedOfEntries(front), r1.Ok?, m1, NeedOfEntry(last), r2.Ok?, m2);
    }
  }

  lemma {:induction false} EntryFits(entry: PyEntry, m: Meter)
    requires MeterOk(m)
    ensures Exact(m, NeedOfEntry(entry), EntryToJs(entry, m).0.Ok?, EntryToJs(entry, m).1)
    decreases entry, 0
  {
    if entry.key.StrKey? {
      var cost := Utf8Len(entry.key.s);
      var (m1, ok) := Pay(m, cost, 8);
      var (r, m2) := ToJs(entry.value, m1);
      if ok {
        ConvertsIffItFits(entry.value, m1);
      }
      ExactAfterPaying(m, cost, 8, NeedOf(entry.value), r.Ok?, m2);
    }
  }

  // A value of an unsupported type leaves the meter as it found it; every other refusal leaves
  // the level it was refused on open.
  lemma UnsupportedLeavesTheMeter(p: PyValue, m: Meter)
    requires p.PyOther? || p.PyJsStream?
    ensures Sat(m.depth + 1) <= m.maxDepth && m.depth < USIZE_MAX ==> ToJs(p, m) == (Err(Unsupported), m)
    ensures Sat(m.depth + 1) > m.maxDepth ==> ToJs(p, m).0 == Err(TooDeep)
  {
  }

  // ---- the result is the value's shape ----

  lemma {:induction false} YieldsShape(p: PyValue, m: Meter)
    ensures ToJs(p, m).0.Ok? ==> ToJs(p, m).0.value == Shape(p)
    decreases p, 1
  {
    var entered := Entered(m).0;
    match p {
      case PyList(items) => AllYieldShapes(items, Pay(entered, 16, Sat(8 * |items|)).0);
      case PySet(items) => AllYieldShapes(items, Pay(entered, 24, Sat(8 * |items|)).0);
      case PyDict(entries) => EntriesYieldShapes(entries, Pay(entered, 24, Sat(16 * |entries|)).0);
      case _ =>
    }
  }

  lemma {:induction false} AllYieldShapes(items: seq<PyValue>, m: Meter)
    ensures ToJsAll(items, m).0.Ok? ==> ToJsAll(items, m).0.value == ShapeAll(items)
    decreases items, 0
  {
    if items != [] {
      var front := items[..|items| - 1];
      AllYieldShapes(front, m);
      YieldsShape(items[|items| - 1], ToJsAll(front, m).1);
    }
  }

  lemma {:induction false} EntriesYieldShapes(entries: seq<PyEntry>, m: Meter)
    ensures ToJsEntries(entries, m).0.Ok? ==> ToJsEntries(entries, m).0.value == ShapeEntries(entries)
    decreases entries, 0
  {
    if entries != [] {
      var front, last := entries[..|entries| - 1], entries[|entries| - 1];
      assert last.value < last;
      EntriesYieldShapes(front, m);
      if last.key.StrKey? {
        YieldsShape(last.value, Pay(ToJsEntries(front, m).1, Utf8Len(last.key.s), 8).0);
      }
    }
  }

  lemma {:induction false} EachIsWithin(items: seq<PyValue>, i: nat)
    requires i < |items|
    ensures NeedOf(items[i]).height <= NeedOfAll(items).height
    ensures NeedOfAll(items).fine ==> NeedOf(items[i]).fine
    decreases |items|
  {
    if i < |items| - 1 {
      EachIsWithin(items[..|items| - 1], i);
    }
  }

  lemma {:induction false} SomeIsDeepest(items: seq<PyValue>) returns (i: nat)
    requires items != []
    ensures i < |items| && NeedOf(items[i]).height == NeedOfAll(items).height
    decreases |items|
  {
    i := |items| - 1;
    var front := items[..i];
    if front != [] && NeedOf(items[i]).height < NeedOfAll(front).height {
      i := SomeIsDeepest(front);
    }
  }

  lemma {:induction false} SomeIsUnfit(items: seq<PyValue>) returns (i: nat)
    requires !NeedOfAll(items).fine
    ensures i < |items| && !NeedOf(items[i]).fine
    decreases |items|
  {
    i := |items| - 1;
    if NeedOf(items[i]).fine {
      i := SomeIsUnfit(items[..i]);
    }
  }

  lemma NeedOfEach(items: seq<PyValue>, limit: nat)
    ensures NeedOfAll(items).fine <==> forall i :: 0 <= i < |items| ==> NeedOf(items[i]).fine
    ensures Sat(NeedOfAll(items).height) <= limit <==>
      forall i :: 0 <= i < |items| ==> Sat(NeedOf(items[i]).height) <= limit
  {
    forall i | 0 <= i < |items|
      ensures NeedOf(items[i]).height <= NeedOfAll(items).height
      ensures NeedOfAll(items).fine ==> NeedOf(items[i]).fine
    {
      EachIsWithin(items, i);
    }
    if !NeedOfAll(items).fine {
      var i := SomeIsUnfit(items);
    }
    if items != [] {
      var i := SomeIsDeepest(items);
    }
  }

  // The arguments of one call into the guest share one fresh meter.
  lemma CallArgumentsFit(args: seq<PyValue>, maxDepth: nat, maxBytes: nat)
    requires maxDepth <= USIZE_MAX && maxBytes <= USIZE_MAX
    ensures var (r, m) := ToJsAll(args, Meter(maxDepth, maxBytes, 0, 0));
      && (r.Ok? <==>
          && (forall i :: 0 <= i < |args| ==> NeedOf(args[i]).fine)
          && (forall i :: 0 <= i < |args| ==> Sat(NeedOf(args[i]).height) <= maxDepth)
          && Sat(NeedOfAll(args).cost) <= maxBytes)
      && (r.Ok? ==> r.value == ShapeAll(args) && m == Meter(maxDepth, maxBytes, 0, Sat(NeedOfAll(args).cost)))
  {
    ListFits(args, Meter(maxDepth, maxBytes, 0, 0));
    AllYieldShapes(args, Meter(maxDepth, maxBytes, 0, 0));
    NeedOfEach(args, maxDepth);
  }
}
