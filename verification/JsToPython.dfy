// Converting a JavaScript value to Python step by step, against a shared limit tracker.
module JsToPython {
  import opened Wrappers
  import opened JsValue
  import opened Budget
  import opened PythonValues
  import F = FromJsBudget

  // The first error in a list is the error of the whole list.
  lemma {:induction false} AllStops(items: seq<JSValue>, handle: bool, m: Meter, k: nat)
    requires k <= |items| && FromJsAll(items[..k], handle, m).0.Err?
    ensures FromJsAll(items, handle, m) == FromJsAll(items[..k], handle, m)
    decreases |items|
  {
    if k < |items| {
      var front := items[..|items| - 1];
      assert front[..k] == items[..k];
      AllStops(front, handle, m, k);
    } else {
      assert items[..k] == items;
    }
  }

  lemma {:induction false} SetStops(items: seq<JSValue>, handle: bool, m: Meter, k: nat)
    requires k <= |items| && FromJsSet(items[..k], handle, m).0.Err?
    ensures FromJsSet(items, handle, m) == FromJsSet(items[..k], handle, m)
    decreases |items|
  {
    if k < |items| {
      var front := items[..|items| - 1];
      assert front[..k] == items[..k];
      SetStops(front, handle, m, k);
    } else {
      assert items[..k] == items;
    }
  }

  lemma {:induction false} PropsStop(props: seq<Prop>, handle: bool, m: Meter, k: nat)
    requires k <= |props| && FromJsProps(props[..k], handle, m).0.Err?
    ensures FromJsProps(props, handle, m) == FromJsProps(props[..k], handle, m)
    decreases |props|
  {
    if k < |props| {
      var front := props[..|props| - 1];
      assert front[..k] == props[..k];
      PropsStop(front, handle, m, k);
    } else {
      assert props[..k] == props;
    }
  }

  // One more member after those that converted.
  lemma SetStep(items: seq<JSValue>, handle: bool, m: Meter, k: nat)
    requires k < |items| && FromJsSet(items[..k], handle, m).0.Ok?
    ensures var (front, m1) := FromJsSet(items[..k], handle, m);
      var (last, m2) := FromJs(items[k], handle, m1);
      FromJsSet(items[..k + 1], handle, m)
        == (if last.Err? then Err(last.error) else if Hashable(last.value) then Ok(PySetAdd(front.value, last.value)) else Err(Unhashable), m2)
  {
    assert items[..k + 1][..k] == items[..k];
  }

  lemma PropsStep(props: seq<Prop>, handle: bool, m: Meter, k: nat)
    requires k < |props| && FromJsProps(props[..k], handle, m).0.Ok?
    ensures var (front, m1) := FromJsProps(props[..k], handle, m);
      var (value, m2) := EntryFromJs(props[k], handle, m1);
      FromJsProps(props[..k + 1], handle, m)
        == (if value.Ok? then Ok(PyDictSet(front.value, props[k].key, value.value)) else Err(value.error), m2)
  {
    assert props[..k + 1][..k] == props[..k];
  }

  method PayTwice(tracker: LimitTracker, a: nat, b: nat) returns (ok: bool)
    modifies tracker
    ensures (tracker.State(), ok) == Pay(old(tracker.State()), a, b)
  {
    ok := tracker.AddBytes(a);
    if ok {
      ok := tracker.AddBytes(b);
    }
  }

  method Convert(v: JSValue, handle: bool, tracker: LimitTracker) returns (r: Result<PyValue, ConvError>)
    modifies tracker
    ensures (r, tracker.State()) == FromJs(v, handle, old(tracker.State()))
    decreases v, 2
  {
    var ok := tracker.Enter();
    if !ok {
      return Err(TooDeep);
    }
    r := ConvertInner(v, handle, tracker);
    tracker.Exit();
  }

  method ConvertInner(v: JSValue, handle: bool, tracker: LimitTracker) returns (r: Result<PyValue, ConvError>)
    modifies tracker
    ensures (r, tracker.State()) == FromJsInner(v, handle, old(tracker.State()))
    decreases v, 1
  {
    match v {
      case Array(items) =>
        var ok := PayTwice(tracker, 16, Sat(8 * |items|));
        if !ok {
          return Err(TooBig);
        }
        var list := ConvertList(items, handle, tracker);
        r := if list.Ok? then Ok(PyList(list.value)) else Err(list.error);
      case Set(items) =>
        var ok := PayTwice(tracker, 24, Sat(8 * |items|));
        if !ok {
          return Err(TooBig);
        }
        var pySet := ConvertSet(items, handle, tracker);
        r := if pySet.Ok? then Ok(PySet(pySet.value)) else Err(pySet.error);
      case Object(props) =>
        var ok := PayTwice(tracker, 24, Sat(16 * |props|));
        if !ok {
          return Err(TooBig);
        }
        r := ConvertObject(props, handle, tracker);
      case _ => r := ConvertLeaf(v, handle, tracker);
    }
  }

  method ConvertLeaf(v: JSValue, handle: bool, tracker: LimitTracker) returns (r: Result<PyValue, ConvError>)
    requires !v.Array? && !v.Set? && !v.Object?
    modifies tracker
    ensures (r, tracker.State()) == FromJsInner(v, handle, old(tracker.State()))
  {
    var ok;
    match v {
      case Undefined =>
        return Ok(PyUndefined);
      case Null =>
        ok := tracker.AddBytes(4);
        r := Ok(PyNone);
      case Bool(b) =>
        ok := tracker.AddBytes(1);
        r := Ok(PyBool(b));
      case Int(i) =>
        ok := tracker.AddBytes(8);
        r := Ok(PyInt(i));
      case BigInt(n) =>
        ok := tracker.AddBytes(MagnitudeLen(Abs(n)));
        r := Ok(PyInt(n));
      case Float(f) =>
        ok := tracker.AddBytes(8);
        r := Ok(PyFloat(f));
      case Str(s) =>
        ok := PayTwice(tracker, Utf8Len(s), 16);
        r := Ok(PyStr(s));
      case Bytes(bytes) =>
        ok := tracker.AddBytes(|bytes|);
        r := Ok(PyBytes(bytes));
      case Date(ms) =>
        ok := tracker.AddBytes(16);
        r := if DateInRange(ms) then Ok(PyDatetime(ms)) else Err(DateRange);
      case Function(id) =>
        ok := tracker.AddBytes(8);
        r := if handle then Ok(PyFunction(id)) else Err(NoHandle);
      case JsStream(id) =>
        ok := tracker.AddBytes(8);
        r := if handle then Ok(PyJsStream(id)) else Err(NoHandle);
      case PyStream(_) =>
        return Err(NoPlaceholder);
    }
    if !ok {
      r := Err(TooBig);
    }
  }

  method ConvertList(items: seq<JSValue>, handle: bool, tracker: LimitTracker)
    returns (r: Result<seq<PyValue>, ConvError>)
    modifies tracker
    ensures (r, tracker.State()) == FromJsAll(items, handle, old(tracker.State()))
    decreases items, 2
  {
    var list: seq<PyValue> := [];
    var k := 0;
    while k < |items|
      invariant 0 <= k <= |items|
      invariant FromJsAll(items[..k], handle, old(tracker.State())) == (Ok(list), tracker.State())
    {
      var item := Convert(items[k], handle, tracker);
      assert items[..k + 1][..k] == items[..k];
      if item.Err? {
        AllStops(items, handle, old(tracker.State()), k + 1);
        return Err(item.error);
      }
      list := list + [item.value];
      k := k + 1;
    }
    assert items[..k] == items;
    r := Ok(list);
  }

  method ConvertSet(items: seq<JSValue>, handle: bool, tracker: LimitTracker)
    returns (r: Result<seq<PyValue>, ConvError>)
    modifies tracker
    ensures (r, tracker.State()) == FromJsSet(items, handle, old(tracker.State()))
    decreases items, 2
  {
    var pySet: seq<PyValue> := [];
    var k := 0;
    while k < |items|
      invariant 0 <= k <= |items|
      invariant FromJsSet(items[..k], handle, old(tracker.State())) == (Ok(pySet), tracker.State())
    {
      SetStep(items, handle, old(tracker.State()), k);
      var item := Convert(items[k], handle, tracker);
      if item.Err? || !Hashable(item.value) {
        SetStops(items, handle, old(tracker.State()), k + 1);
        return Err(if item.Err? then item.error else Unhashable);
      }
      pySet := PySetAdd(pySet, item.value);
      k := k + 1;
    }
    assert items[..k] == items;
    r := Ok(pySet);
  }

  method ConvertObject(props: seq<Prop>, handle: bool, tracker: LimitTracker) returns (r: Result<PyValue, ConvError>)
    modifies tracker
    ensures (r, tracker.State()) == FromJsObject(props, handle, old(tracker.State()))
    decreases props, 3
  {
    match Classify(props) {
      case AsUndefined => return Ok(PyUndefined);
      case AsDate(ms) =>
        return if ms.None? then Err(BadPayload) else if DateInRange(ms.value) then Ok(PyDatetime(ms.value)) else Err(DateRange);
      case AsBigInt(n) =>
        return if n.Some? then Ok(PyInt(n.value)) else Err(BadPayload);
      case AsSet(at) =>
        var pySet := ConvertSet(props[at].value.items, handle, tracker);
        return if pySet.Ok? then Ok(PySet(pySet.value)) else Err(pySet.error);
      case AsDict =>
        var dict := ConvertDict(props, handle, tracker);
        return if dict.Ok? then Ok(PyDict(dict.value)) else Err(dict.error);
    }
  }

  method ConvertDict(props: seq<Prop>, handle: bool, tracker: LimitTracker) returns (r: Result<seq<PyEntry>, ConvError>)
    modifies tracker
    ensures (r, tracker.State()) == FromJsProps(props, handle, old(tracker.State()))
    decreases props, 2
  {
    var dict: seq<PyEntry> := [];
    var k := 0;
    while k < |props|
      invariant 0 <= k <= |props|
      invariant FromJsProps(props[..k], handle, old(tracker.State())) == (Ok(dict), tracker.State())
    {
      PropsStep(props, handle, old(tracker.State()), k);
      var value := ConvertEntry(props[k], handle, tracker);
      if value.Err? {
        PropsStop(props, handle, old(tracker.State()), k + 1);
        return Err(value.error);
      }
      dict := PyDictSet(dict, props[k].key, value.value);
      k := k + 1;
    }
    assert props[..k] == props;
    r := Ok(dict);
  }

  method ConvertEntry(prop: Prop, handle: bool, tracker: LimitTracker) returns (r: Result<PyValue, ConvError>)
    modifies tracker
    ensures (r, tracker.State()) == EntryFromJs(prop, handle, old(tracker.State()))
    decreases prop, 2
  {
    var ok := PayTwice(tracker, Utf8Len(prop.key), 8);
    if !ok {
      return Err(TooBig);
    }
    r := Convert(prop.value, handle, tracker);
  }

  // One call's arguments against one tracker, as the op dispatcher does: the call is refused
  // exactly when an argument cannot convert, one is nested too deep, or their costs together
  // exceed the budget.
  method ConvertArgs(args: seq<JSValue>, maxDepth: nat, maxBytes: nat) returns (r: Result<seq<PyValue>, ConvError>)
    requires maxDepth <= USIZE_MAX && maxBytes <= USIZE_MAX
    ensures r.Ok? <==>
      && (forall i :: 0 <= i < |args| ==> F.NeedOf(args[i], false).fine)
      && (forall i :: 0 <= i < |args| ==> Sat(F.NeedOf(args[i], false).height) <= maxDepth)
      && Sat(F.NeedOfAll(args, false).cost) <= maxBytes
    ensures r.Ok? ==> r.value == F.ImageAll(args)
  {
    var tracker := new LimitTracker(maxDepth, maxBytes);
    F.CallArgumentsFit(args, false, maxDepth, maxBytes);
    r := ConvertList(args, false, tracker);
  }
}
