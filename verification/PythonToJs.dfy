// Converting Python objects to JavaScript step by step, against a shared limit tracker and a
// mutable set of the containers being converted.
module PythonToJs {
  import opened Wrappers
  import opened JsValue
  import opened Budget
  import opened PythonValues
  import opened ObjectGraph
  import J = JsToPython
  import opened GraphCycles
  import U = GraphUnfolding
  import T = ToJsBudget

  class SeenSet {
    var refs: set<Ref>

    constructor ()
      ensures refs == {}
    {
      refs := {};
    }

    method Insert(r: Ref) returns (added: bool)
      modifies this
      ensures refs == old(refs) + {r} && added == (r !in old(refs))
    {
      added := r !in refs;
      refs := refs + {r};
    }

    method Remove(r: Ref)
      modifies this
      ensures refs == old(refs) - {r}
    {
      refs := refs - {r};
    }
  }

  // `seen` holds exactly the containers on the path from the root to the object in hand, and
  // none of them twice.
  ghost predicate OnPath(h: Heap, path: seq<Ref>, r: Ref, seen: set<Ref>) {
    Walk(h, path + [r]) && Simple(path) && seen == Places(path)
  }

  lemma OnPathStep(h: Heap, path: seq<Ref>, r: Ref, c: Ref, seen: set<Ref>)
    requires Closed(h) && OnPath(h, path, r, seen) && r !in seen && c in Children(h[(path + [r])[|path|]])
    ensures c in h && OnPath(h, path + [r], c, seen + {r})
  {
    WalkGrows(h, path + [r], c);
    assert Places(path + [r]) == Places(path) + {r};
  }

  // The first error in a list is the error of the whole list.
  lemma {:induction false} AllStop(h: Heap, refs: seq<Ref>, seen: set<Ref>, m: Meter, k: nat)
    requires Closed(h) && AllIn(h, refs) && k <= |refs| && ConvertAll(h, refs[..k], seen, m).0.Err?
    ensures ConvertAll(h, refs, seen, m) == ConvertAll(h, refs[..k], seen, m)
    decreases |refs|
  {
    if k < |refs| {
      var front := refs[..|refs| - 1];
      assert front[..k] == refs[..k];
      AllStop(h, front, seen, m, k);
    } else {
      assert refs[..k] == refs;
    }
  }

  lemma {:induction false} EntriesStop(h: Heap, entries: seq<RefEntry>, seen: set<Ref>, m: Meter, k: nat)
    requires Closed(h) && AllIn(h, Refs(entries)) && k <= |entries| && AllIn(h, Refs(entries[..k]))
    requires ConvertEntries(h, entries[..k], seen, m).0.Err?
    ensures ConvertEntries(h, entries, seen, m) == ConvertEntries(h, entries[..k], seen, m)
    decreases |entries|
  {
    if k < |entries| {
      var front := entries[..|entries| - 1];
      assert front[..k] == entries[..k];
      assert AllIn(h, Refs(front)) && Refs(entries)[|entries| - 1] in h;
      EntriesStop(h, front, seen, m, k);
    } else {
      assert entries[..k] == entries;
    }
  }

  // One more entry after those that converted.
  lemma EntriesStep(h: Heap, entries: seq<RefEntry>, seen: set<Ref>, m: Meter, k: nat)
    requires Closed(h) && AllIn(h, Refs(entries)) && k < |entries| && AllIn(h, Refs(entries[..k]))
    requires ConvertEntries(h, entries[..k], seen, m).0.Ok?
    ensures entries[k].ref in h && AllIn(h, Refs(entries[..k + 1]))
    ensures var (front, m1) := ConvertEntries(h, entries[..k], seen, m);
      var (value, m2) := ConvertEntry(h, entries[k], seen, m1);
      ConvertEntries(h, entries[..k + 1], seen, m)
        == (if value.Ok? then Ok(Insert(front.value, entries[k].key.s, value.value)) else Err(value.error), m2)
  {
    assert Refs(entries)[k] == entries[k].ref;
    assert forall i :: 0 <= i <= k ==> Refs(entries[..k + 1])[i] == Refs(entries)[i];
    assert entries[..k + 1][..k] == entries[..k];
  }

  method ConvertLeaf(p: PyValue, tracker: LimitTracker) returns (result: Result<JSValue, ConvError>)
    requires Atomic(p)
    modifies tracker
    ensures (result, tracker.State()) == ToJsInner(p, old(tracker.State()))
  {
    var ok;
    match p {
      case PyNone =>
        ok := tracker.AddBytes(4);
        result := Ok(Null);
      case PyUndefined =>
        ok := tracker.AddBytes(0);
        result := Ok(Undefined);
      case PyStreamSource(id) =>
        ok := tracker.AddBytes(4);
        result := Ok(PyStream(id));
      case PyBytes(bytes) =>
        ok := tracker.AddBytes(|bytes|);
        result := Ok(Bytes(bytes));
      case PyDatetime(ms) =>
        ok := tracker.AddBytes(16);
        result := Ok(Date(ms));
      case PyBool(b) =>
        ok := tracker.AddBytes(1);
        result := Ok(Bool(b));
      case PyInt(n) =>
        if InI64(n) {
          ok := tracker.AddBytes(8);
          result := Ok(Int(n));
        } else {
          ok := tracker.AddBytes(MagnitudeLen(Abs(n)));
          result := Ok(BigInt(n));
        }
      case PyFloat(f) =>
        ok := tracker.AddBytes(8);
        result := Ok(Float(f));
      case PyStr(s) =>
        if Sat(Utf8Len(s)) > tracker.maxBytes {
          return Err(TooBig);
        }
        ok := J.PayTwice(tracker, Utf8Len(s), 16);
        result := Ok(Str(s));
      case PyFunction(id) =>
        ok := tracker.AddBytes(8);
        result := Ok(Function(id));
      case _ =>
        return Err(Unsupported);
    }
    if !ok {
      result := Err(TooBig);
    }
  }

  method ConvertObject(h: Heap, r: Ref, seen: SeenSet, tracker: LimitTracker, ghost path: seq<Ref>)
    returns (result: Result<JSValue, ConvError>)
    requires Closed(h) && r in h && OnPath(h, path, r, seen.refs)
    modifies seen, tracker
    ensures (result, tracker.State()) == Convert(h, r, old(seen.refs), old(tracker.State()))
    ensures result.Ok? ==> seen.refs == old(seen.refs)
    decreases h.Keys - seen.refs, 1
  {
    var ok := tracker.Enter();
    if !ok {
      return Err(TooDeep);
    }
    if h[r].Leaf? {
      result := ConvertLeaf(h[r].value, tracker);
      if result.Err? && !Unsupportable(h[r].value) {
        return;
      }
    } else {
      var added := seen.Insert(r);
      if !added {
        return Err(Circular);
      }
      result := ConvertContainer(h, r, seen, tracker, path);
      if result.Err? {
        return;
      }
      seen.Remove(r);
    }
    tracker.Exit();
  }

  method ConvertContainer(h: Heap, r: Ref, seen: SeenSet, tracker: LimitTracker, ghost path: seq<Ref>)
    returns (result: Result<JSValue, ConvError>)
    requires Closed(h) && r in h && !h[r].Leaf? && r in seen.refs && OnPath(h, path, r, seen.refs - {r})
    modifies seen, tracker
    ensures (result, tracker.State()) == ConvertInner(h, r, old(seen.refs) - {r}, old(tracker.State()))
    ensures result.Ok? ==> seen.refs == old(seen.refs)
    decreases h.Keys - seen.refs, 3
  {
    assert seen.refs - {r} + {r} == seen.refs;
    match h[r] {
      case ListNode(refs) =>
        var ok := J.PayTwice(tracker, 16, Sat(8 * |refs|));
        if !ok {
          return Err(TooBig);
        }
        var items := ConvertItems(h, r, refs, seen, tracker, path);
        result := if items.Ok? then Ok(Array(items.value)) else Err(items.error);
      case SetNode(refs) =>
        var ok := J.PayTwice(tracker, 24, Sat(8 * |refs|));
        if !ok {
          return Err(TooBig);
        }
        var items := ConvertItems(h, r, refs, seen, tracker, path);
        result := if items.Ok? then Ok(Set(items.value)) else Err(items.error);
      case DictNode(entries) =>
        var ok := J.PayTwice(tracker, 24, Sat(16 * |entries|));
        if !ok {
          return Err(TooBig);
        }
        var props := ConvertDict(h, r, entries, seen, tracker, path);
        result := if props.Ok? then Ok(Object(props.value)) else Err(props.error);
    }
  }

  method ConvertItems(h: Heap, r: Ref, refs: seq<Ref>, seen: SeenSet, tracker: LimitTracker, ghost path: seq<Ref>)
    returns (result: Result<seq<JSValue>, ConvError>)
    requires Closed(h) && r in h && Children(h[r]) == refs && r in seen.refs && OnPath(h, path, r, seen.refs - {r})
    modifies seen, tracker
    ensures (result, tracker.State()) == ConvertAll(h, refs, old(seen.refs), old(tracker.State()))
    ensures result.Ok? ==> seen.refs == old(seen.refs)
    decreases h.Keys - seen.refs, 2
  {
    var items: seq<JSValue> := [];
    var k := 0;
    while k < |refs|
      invariant 0 <= k <= |refs| && seen.refs == old(seen.refs)
      invariant ConvertAll(h, refs[..k], old(seen.refs), old(tracker.State())) == (Ok(items), tracker.State())
    {
      assert refs[..k + 1][..k] == refs[..k];
      StepInside(h, path, r, refs[k], seen.refs);
      var item := ConvertObject(h, refs[k], seen, tracker, path + [r]);
      if item.Err? {
        AllStop(h, refs, old(seen.refs), old(tracker.State()), k + 1);
        return Err(item.error);
      }
      items := items + [item.value];
      k := k + 1;
    }
    assert refs[..k] == refs;
    result := Ok(items);
  }

  lemma StepInside(h: Heap, path: seq<Ref>, r: Ref, c: Ref, seen: set<Ref>)
    requires Closed(h) && r in h && c in Children(h[r]) && r in seen && OnPath(h, path, r, seen - {r})
    ensures c in h && OnPath(h, path + [r], c, seen)
  {
    OnPathStep(h, path, r, c, seen - {r});
    assert seen - {r} + {r} == seen;
  }

  method ConvertDict(h: Heap, r: Ref, entries: seq<RefEntry>, seen: SeenSet, tracker: LimitTracker, ghost path: seq<Ref>)
    returns (result: Result<seq<Prop>, ConvError>)
    requires Closed(h) && r in h && h[r] == DictNode(entries) && r in seen.refs && OnPath(h, path, r, seen.refs - {r})
    modifies seen, tracker
    ensures (result, tracker.State()) == ConvertEntries(h, entries, old(seen.refs), old(tracker.State()))
    ensures result.Ok? ==> seen.refs == old(seen.refs)
    decreases h.Keys - seen.refs, 2
  {
    var props: seq<Prop> := [];
    var k := 0;
    while k < |entries|
      invariant 0 <= k <= |entries| && seen.refs == old(seen.refs) && AllIn(h, Refs(entries[..k]))
      invariant ConvertEntries(h, entries[..k], old(seen.refs), old(tracker.State())) == (Ok(props), tracker.State())
    {
      EntriesStep(h, entries, seen.refs, old(tracker.State()), k);
      assert Refs(entries)[k] == entries[k].ref;
      StepInside(h, path, r, entries[k].ref, seen.refs);
      var value := ConvertDictEntry(h, entries[k], seen, tracker, path + [r]);
      if value.Err? {
        EntriesStop(h, entries, old(seen.refs), old(tracker.State()), k + 1);
        return Err(value.error);
      }
      props := Insert(props, entries[k].key.s, value.value);
      k := k + 1;
    }
    assert entries[..k] == entries;
    result := Ok(props);
  }

  method ConvertDictEntry(h: Heap, entry: RefEntry, seen: SeenSet, tracker: LimitTracker, ghost path: seq<Ref>)
    returns (result: Result<JSValue, ConvError>)
    requires Closed(h) && entry.ref in h && OnPath(h, path, entry.ref, seen.refs)
    modifies seen, tracker
    ensures (result, tracker.State()) == ConvertEntry(h, entry, old(seen.refs), old(tracker.State()))
    ensures result.Ok? ==> seen.refs == old(seen.refs)
    decreases h.Keys - seen.refs, 2, 0
  {
    if entry.key.OtherKey? {
      return Err(BadKey);
    }
    var ok := J.PayTwice(tracker, Utf8Len(entry.key.s), 8);
    if !ok {
      return Err(TooBig);
    }
    result := ConvertObject(h, entry.ref, seen, tracker, path);
  }

  // The arguments unfold to trees that are supported and nest no deeper than the limit each,
  // and whose costs together are within the budget.
  ghost predicate ArgumentsFit(h: Heap, args: seq<Ref>, maxDepth: nat, maxBytes: nat) {
    exists ts :: U.UnrollsAll(h, args, ts) && TreesFit(ts, maxDepth, maxBytes)
  }

  ghost predicate TreesFit(ts: seq<PyValue>, maxDepth: nat, maxBytes: nat) {
    && (forall i :: 0 <= i < |ts| ==> T.NeedOf(ts[i]).fine)
    && (forall i :: 0 <= i < |ts| ==> Sat(T.NeedOf(ts[i]).height) <= maxDepth)
    && Sat(T.NeedOfAll(ts).cost) <= maxBytes
  }

  lemma ArgumentsConvertIffTheyFit(h: Heap, args: seq<Ref>, maxDepth: nat, maxBytes: nat)
    requires Closed(h) && AllIn(h, args) && maxDepth <= USIZE_MAX && maxBytes <= USIZE_MAX
    ensures var result := ConvertAll(h, args, {}, Meter(maxDepth, maxBytes, 0, 0)).0;
      && (result.Ok? <==> ArgumentsFit(h, args, maxDepth, maxBytes))
      && (result.Ok? ==> forall ts :: U.UnrollsAll(h, args, ts) ==> result.value == T.ShapeAll(ts))
  {
    var m := Meter(maxDepth, maxBytes, 0, 0);
    forall ts | U.UnrollsAll(h, args, ts)
      ensures ConvertAll(h, args, {}, m).0.Ok? <==> TreesFit(ts, maxDepth, maxBytes)
      ensures ConvertAll(h, args, {}, m).0.Ok? ==> ConvertAll(h, args, {}, m).0.value == T.ShapeAll(ts)
    {
      U.AllFollow(h, args, ts, {}, map[], m);
      T.CallArgumentsFit(ts, maxDepth, maxBytes);
    }
    if ConvertAll(h, args, {}, m).0.Ok? {
      var ts := ConvertedUnfoldAll(h, args, {}, m);
    }
  }

  // The arguments of one call into the guest: one tracker for all of them, but a fresh set of
  // containers for each, so the same object may be passed twice.
  method ConvertArgs(h: Heap, args: seq<Ref>, maxDepth: nat, maxBytes: nat) returns (result: Result<seq<JSValue>, ConvError>)
    requires Closed(h) && AllIn(h, args) && maxDepth <= USIZE_MAX && maxBytes <= USIZE_MAX
    ensures result.Ok? <==> ArgumentsFit(h, args, maxDepth, maxBytes)
    ensures result.Ok? ==> forall ts :: U.UnrollsAll(h, args, ts) ==> result.value == T.ShapeAll(ts)
  {
    var tracker := new LimitTracker(maxDepth, maxBytes);
    ghost var m := tracker.State();
    ArgumentsConvertIffTheyFit(h, args, maxDepth, maxBytes);
    var jsArgs: seq<JSValue> := [];
    var k := 0;
    while k < |args|
      invariant 0 <= k <= |args|
      invariant ConvertAll(h, args[..k], {}, m) == (Ok(jsArgs), tracker.State())
    {
      assert args[..k + 1][..k] == args[..k];
      var seen := new SeenSet();
      assert Walk(h, [] + [args[k]]) && Places([]) == {};
      var arg := ConvertObject(h, args[k], seen, tracker, []);
      if arg.Err? {
        AllStop(h, args, {}, m, k + 1);
        return Err(arg.error);
      }
      jsArgs := jsArgs + [arg.value];
      k := k + 1;
    }
    assert args[..k] == args;
    result := Ok(jsArgs);
  }
}
