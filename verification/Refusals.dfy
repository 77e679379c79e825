// Every refusal names its reason: too deep means that the value nests past the limit, too big
// that its cost does not fit, and any other error that something inside cannot convert at all.
module Refusals {
  import opened Wrappers
  import opened JsValue
  import opened Budget
  import opened PythonValues
  import F = FromJsBudget
  import T = ToJsBudget

  predicate Blames(m: Meter, need: Need, e: ConvError) {
    match e
    case TooDeep => Sat(m.depth + need.height) > m.maxDepth
    case TooBig => Sat(m.bytes + need.cost) > m.maxBytes
    case _ => !need.fine
  }

  predicate Justified<X>(m: Meter, need: Need, r: Result<X, ConvError>) {
    r.Err? ==> Blames(m, need, r.error)
  }

  lemma FirstBlames(m: Meter, need1: Need, need2: Need, e: ConvError)
    requires MeterOk(m) && Blames(m, need1, e)
    ensures Blames(m, Both(need1, need2), e)
  {
  }

  lemma SecondBlames(m: Meter, need1: Need, m1: Meter, need2: Need, e: ConvError)
    requires MeterOk(m) && Fits(m, need1) && Spent(m, m1, need1) && Blames(m1, need2, e)
    ensures Blames(m, Both(need1, need2), e)
  {
    if m.maxDepth < USIZE_MAX {
      assert m1.depth == m.depth;
    }
  }

  lemma BlamesAfterPaying(m: Meter, a: nat, b: nat, need: Need, e: ConvError)
    requires MeterOk(m) && (if Pay(m, a, Sat(b)).1 then Blames(Pay(m, a, Sat(b)).0, need, e) else e == TooBig)
    ensures Blames(m, Costing(a + b, need), e)
  {
  }

  // Paying and entering leave a meter on which nothing has been refused.
  lemma PaidIsOk(m: Meter, a: nat, b: nat)
    requires MeterOk(m) && Pay(m, a, b).1
    ensures MeterOk(Pay(m, a, b).0)
  {
  }

  lemma EnteredIsOk(m: Meter)
    requires MeterOk(m) && Entered(m).1
    ensures MeterOk(Entered(m).0)
  {
  }

  lemma BlamesInside(m: Meter, need: Need, e: ConvError)
    requires MeterOk(m) && (if Entered(m).1 then Blames(Entered(m).0, need, e) else e == TooDeep)
    ensures Blames(m, Nested(need), e)
  {
  }

  // ---- JavaScript to Python ----

  lemma {:induction false} FromJsNamesTheReason(v: JSValue, handle: bool, m: Meter)
    requires MeterOk(m)
    ensures Justified(m, F.NeedOf(v, handle), FromJs(v, handle, m).0)
    decreases v, 4
  {
    var (entered, ok) := Entered(m);
    if ok {
      EnteredIsOk(m);
      FromJsInside(v, handle, entered);
    }
    if FromJs(v, handle, m).0.Err? {
      BlamesInside(m, F.InnerNeed(v, handle), FromJs(v, handle, m).0.error);
    }
  }

  lemma {:induction false} FromJsInside(v: JSValue, handle: bool, m: Meter)
    requires MeterOk(m)
    ensures Justified(m, F.InnerNeed(v, handle), FromJsInner(v, handle, m).0)
    decreases v, 3
  {
    match v
    case Array(_) => ArrayRefused(v, handle, m);
    case Set(_) => SetRefused(v, handle, m);
    case Object(_) => ObjectRefused(v, handle, m);
    case _ => LeafRefused(v, handle, m);
  }

  lemma LeafRefused(v: JSValue, handle: bool, m: Meter)
    requires MeterOk(m) && !v.Array? && !v.Set? && !v.Object?
    ensures Justified(m, F.InnerNeed(v, handle), FromJsInner(v, handle, m).0)
  {
  }

  lemma {:induction false} ArrayRefused(v: JSValue, handle: bool, m: Meter)
    requires MeterOk(m) && v.Array?
    ensures Justified(m, F.InnerNeed(v, handle), FromJsInner(v, handle, m).0)
    decreases v, 2
  {
    var n := 8 * |v.items|;
    var (m1, ok) := Pay(m, 16, Sat(n));
    if ok {
      PaidIsOk(m, 16, Sat(n));
      AllRefused(v.items, handle, m1);
    }
    if FromJsInner(v, handle, m).0.Err? {
      BlamesAfterPaying(m, 16, n, F.NeedOfAll(v.items, handle), FromJsInner(v, handle, m).0.error);
    }
  }

  lemma {:induction false} SetRefused(v: JSValue, handle: bool, m: Meter)
    requires MeterOk(m) && v.Set?
    ensures Justified(m, F.InnerNeed(v, handle), FromJsInner(v, handle, m).0)
    decreases v, 2
  {
    var n := 8 * |v.items|;
    var (m1, ok) := Pay(m, 24, Sat(n));
    if ok {
      PaidIsOk(m, 24, Sat(n));
      MembersRefused(v.items, handle, m1);
    }
    if FromJsInner(v, handle, m).0.Err? {
      BlamesAfterPaying(m, 24, n, F.NeedOfSet(v.items, handle), FromJsInner(v, handle, m).0.error);
    }
  }

  lemma {:induction false} ObjectRefused(v: JSValue, handle: bool, m: Meter)
    requires MeterOk(m) && v.Object?
    ensures Justified(m, F.InnerNeed(v, handle), FromJsInner(v, handle, m).0)
    decreases v, 2
  {
    var n := 16 * |v.props|;
    var (m1, ok) := Pay(m, 24, Sat(n));
    if ok {
      PaidIsOk(m, 24, Sat(n));
      TaggedRefused(v, handle, m1);
    }
    if FromJsInner(v, handle, m).0.Err? {
      BlamesAfterPaying(m, 24, n, F.ObjectNeed(v.props, handle), FromJsInner(v, handle, m).0.error);
    }
  }

  lemma {:induction false} TaggedRefused(v: JSValue, handle: bool, m: Meter)
    requires MeterOk(m) && v.Object?
    ensures Justified(m, F.ObjectNeed(v.props, handle), FromJsObject(v.props, handle, m).0)
    decreases v, 1
  {
    match Classify(v.props)
    case AsSet(at) => MembersRefused(v.props[at].value.items, handle, m);
    case AsDict => PropsRefused(v.props, handle, m);
    case _ =>
  }

  lemma {:induction false} AllRefused(items: seq<JSValue>, handle: bool, m: Meter)
    requires MeterOk(m)
    ensures Justified(m, F.NeedOfAll(items, handle), FromJsAll(items, handle, m).0)
    decreases items, 0
  {
    if items != [] {
      var front, last := items[..|items| - 1], items[|items| - 1];
      AllRefused(front, handle, m);
      F.ListFits(front, handle, m);
      var (r1, m1) := FromJsAll(front, handle, m);
      if r1.Err? {
        FirstBlames(m, F.NeedOfAll(front, handle), F.NeedOf(last, handle), r1.error);
      } else {
        SpentIsOk(m, F.NeedOfAll(front, handle), m1);
        FromJsNamesTheReason(last, handle, m1);
        var r := FromJsAll(items, handle, m).0;
        if r.Err? {
          SecondBlames(m, F.NeedOfAll(front, handle), m1, F.NeedOf(last, handle), r.error);
        }
      }
    }
  }

  lemma {:induction false} MembersRefused(items: seq<JSValue>, handle: bool, m: Meter)
    requires MeterOk(m)
    ensures Justified(m, F.NeedOfSet(items, handle), FromJsSet(items, handle, m).0)
    decreases items, 0
  {
    if items != [] {
      var front, last := items[..|items| - 1], items[|items| - 1];
      MembersRefused(front, handle, m);
      F.SetFits(front, handle, m);
      var (r1, m1) := FromJsSet(front, handle, m);
      if r1.Err? {
        FirstBlames(m, F.NeedOfSet(front, handle), F.MemberNeed(last, handle), r1.error);
      } else {
        SpentIsOk(m, F.NeedOfSet(front, handle), m1);
        FromJsNamesTheReason(last, handle, m1);
        F.YieldsImage(last, handle, m1);
        var r := FromJsSet(items, handle, m).0;
        if r.Err? {
          SecondBlames(m, F.NeedOfSet(front, handle), m1, F.MemberNeed(last, handle), r.error);
        }
      }
    }
  }

  lemma {:induction false} PropsRefused(props: seq<Prop>, handle: bool, m: Meter)
    requires MeterOk(m)
    ensures Justified(m, F.NeedOfProps(props, handle), FromJsProps(props, handle, m).0)
    decreases props, 0
  {
    if props != [] {
      var front, last := props[..|props| - 1], props[|props| - 1];
      PropsRefused(front, handle, m);
      F.PropsFit(front, handle, m);
      var (r1, m1) := FromJsProps(front, handle, m);
      if r1.Err? {
        FirstBlames(m, F.NeedOfProps(front, handle), F.NeedOfEntry(last, handle), r1.error);
      } else {
        SpentIsOk(m, F.NeedOfProps(front, handle), m1);
        EntryRefused(last, handle, m1);
        var r := FromJsProps(props, handle, m).0;
        if r.Err? {
          SecondBlames(m, F.NeedOfProps(front, handle), m1, F.NeedOfEntry(last, handle), r.error);
        }
      }
    }
  }

  lemma {:induction false} EntryRefused(prop: Prop, handle: bool, m: Meter)
    requires MeterOk(m)
    ensures Justified(m, F.NeedOfEntry(prop, handle), EntryFromJs(prop, handle, m).0)
    decreases prop, 0
  {
    var cost := Utf8Len(prop.key);
    var (m1, ok) := Pay(m, cost, 8);
    if ok {
      PaidIsOk(m, cost, 8);
      FromJsNamesTheReason(prop.value, handle, m1);
    }
    if EntryFromJs(prop, handle, m).0.Err? {
      BlamesAfterPaying(m, cost, 8, F.NeedOf(prop.value, handle), EntryFromJs(prop, handle, m).0.error);
    }
  }

  // ---- Python to JavaScript ----

  lemma {:induction false} ToJsNamesTheReason(p: PyValue, m: Meter)
    requires MeterOk(m)
    ensures Justified(m, T.NeedOf(p), ToJs(p, m).0)
    decreases p, 2
  {
    var (entered, ok) := Entered(m);
    if ok {
      EnteredIsOk(m);
      ToJsInside(p, entered);
    }
    if ToJs(p, m).0.Err? {
      BlamesInside(m, T.InnerNeed(p), ToJs(p, m).0.error);
    }
  }

  lemma {:induction false} ToJsInside(p: PyValue, m: Meter)
    requires MeterOk(m)
    ensures Justified(m, T.InnerNeed(p), ToJsInner(p, m).0)
    decreases p, 1
  {
    match p
    case PyList(_) => PyListRefused(p, m);
    case PySet(_) => PySetRefused(p, m);
    case PyDict(_) => PyDictRefused(p, m);
    case _ => PyLeafRefused(p, m);
  }

  lemma PyLeafRefused(p: PyValue, m: Meter)
    requires MeterOk(m) && !p.PyList? && !p.PySet? && !p.PyDict?
    ensures Justified(m, T.InnerNeed(p), ToJsInner(p, m).0)
  {
  }

  lemma {:induction false} PyListRefused(p: PyValue, m: Meter)
    requires MeterOk(m) && p.PyList?
    ensures Justified(m, T.InnerNeed(p), ToJsInner(p, m).0)
    decreases p, 0
  {
    var n := 8 * |p.items|;
    var (m1, ok) := Pay(m, 16, Sat(n));
    if ok {
      PaidIsOk(m, 16, Sat(n));
      PyAllRefused(p.items, m1);
    }
    if ToJsInner(p, m).0.Err? {
      BlamesAfterPaying(m, 16, n, T.NeedOfAll(p.items), ToJsInner(p, m).0.error);
    }
  }

  lemma {:induction false} PySetRefused(p: PyValue, m: Meter)
    requires MeterOk(m) && p.PySet?
    ensures Justified(m, T.InnerNeed(p), ToJsInner(p, m).0)
    decreases p, 0
  {
    var n := 8 * |p.items|;
    var (m1, ok) := Pay(m, 24, Sat(n));
    if ok {
      PaidIsOk(m, 24, Sat(n));
      PyAllRefused(p.items, m1);
    }
    if ToJsInner(p, m).0.Err? {
      BlamesAfterPaying(m, 24, n, T.NeedOfAll(p.items), ToJsInner(p, m).0.error);
    }
  }

  lemma {:induction false} PyDictRefused(p: PyValue, m: Meter)
    requires MeterOk(m) && p.PyDict?
    ensures Justified(m, T.InnerNeed(p), ToJsInner(p, m).0)
    decreases p, 0
  {
    var n := 16 * |p.entries|;
    var (m1, ok) := Pay(m, 24, Sat(n));
    if ok {
      PaidIsOk(m, 24, Sat(n));
      PyEntriesRefused(p.entries, m1);
    }
    if ToJsInner(p, m).0.Err? {
      BlamesAfterPaying(m, 24, n, T.NeedOfEntries(p.entries), ToJsInner(p, m).0.error);
    }
  }

  lemma {:induction false} PyAllRefused(items: seq<PyValue>, m: Meter)
    requires MeterOk(m)
    ensures Justified(m, T.NeedOfAll(items), ToJsAll(items, m).0)
    decreases items, 0
  {
    if items != [] {
      var front, last := items[..|items| - 1], items[|items| - 1];
      PyAllRefused(front, m);
      T.ListFits(front, m);
      var (r1, m1) := ToJsAll(front, m);
      if r1.Err? {
        FirstBlames(m, T.NeedOfAll(front), T.NeedOf(last), r1.error);
      } else {
        SpentIsOk(m, T.NeedOfAll(front), m1);
        ToJsNamesTheReason(last, m1);
        var r := ToJsAll(items, m).0;
        if r.Err? {
          SecondBlames(m, T.NeedOfAll(front), m1, T.NeedOf(last), r.error);
        }
      }
    }
  }

  lemma {:induction false} PyEntriesRefused(entries: seq<PyEntry>, m: Meter)
    requires MeterOk(m)
    ensures Justified(m, T.NeedOfEntries(entries), ToJsEntries(entries, m).0)
    decreases entries, 0
  {
    if entries != [] {
      var front, last := entries[..|entries| - 1], entries[|entries| - 1];
      PyEntriesRefused(front, m);
      T.EntriesFit(front, m);
      var (r1, m1) := ToJsEntries(front, m);
      if r1.Err? {
        FirstBlames(m, T.NeedOfEntries(front), T.NeedOfEntry(last), r1.error);
      } else {
        SpentIsOk(m, T.NeedOfEntries(front), m1);
        PyEntryRefused(last, m1);
        var r := ToJsEntries(entries, m).0;
        if r.Err? {
          SecondBlames(m, T.NeedOfEntries(front), m1, T.NeedOfEntry(last), r.error);
        }
      }
    }
  }

  lemma {:induction false} PyEntryRefused(entry: PyEntry, m: Meter)
    requires MeterOk(m)
    ensures Justified(m, T.NeedOfEntry(entry), EntryToJs(entry, m).0)
    decreases entry, 0
  {
    if entry.key.StrKey? {
      var cost := Utf8Len(entry.key.s);
      var (m1, ok) := Pay(m, cost, 8);
      if ok {
        PaidIsOk(m, cost, 8);
        ToJsNamesTheReason(entry.value, m1);
      }
      if EntryToJs(entry, m).0.Err? {
        BlamesAfterPaying(m, cost, 8, T.NeedOf(entry.value), EntryToJs(entry, m).0.error);
      }
    }
  }
}
