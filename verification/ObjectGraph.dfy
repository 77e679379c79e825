// Python objects as a graph: containers are shared by reference and may be cyclic.  The
// conversion to JavaScript carries the set of containers on the path it is following.
module ObjectGraph {
  import opened Wrappers
  import opened JsValue
  import opened Budget
  import opened PythonValues
  import opened ToJsBudget

  type Ref = nat

  datatype RefEntry = RefEntry(key: PyKey, ref: Ref)

  datatype Node =
    | Leaf(value: PyValue)
    | ListNode(items: seq<Ref>)
    | DictNode(entries: seq<RefEntry>)
    | SetNode(items: seq<Ref>)        // set or frozenset

  type Heap = map<Ref, Node>

  predicate Atomic(p: PyValue) {
    !p.PyList? && !p.PyDict? && !p.PySet?
  }

  predicate AllIn(h: Heap, refs: seq<Ref>) {
    forall i :: 0 <= i < |refs| ==> refs[i] in h
  }

  function Refs(entries: seq<RefEntry>): (refs: seq<Ref>)
    ensures |refs| == |entries| && forall i :: 0 <= i < |refs| ==> refs[i] == entries[i].ref
  {
    seq(|entries|, i requires 0 <= i < |entries| => entries[i].ref)
  }

  function Children(node: Node): seq<Ref> {
    match node
    case Leaf(_) => []
    case ListNode(items) => items
    case DictNode(entries) => Refs(entries)
    case SetNode(items) => items
  }

  // Every reference leads to an object.
  predicate Closed(h: Heap) {
    forall r :: r in h ==> AllIn(h, Children(h[r])) && (h[r].Leaf? ==> Atomic(h[r].value))
  }

  // ---- the conversion ----

  function Convert(h: Heap, r: Ref, seen: set<Ref>, m: Meter): (Result<JSValue, ConvError>, Meter)
    requires Closed(h) && r in h
    decreases h.Keys - seen, 1
  {
    var (entered, ok) := Entered(m);
    if !ok then (Err(TooDeep), entered)
    else
      var (result, m1) := ConvertInner(h, r, seen, entered);
      (result, if result.Ok? || (h[r].Leaf? && Unsupportable(h[r].value)) then Exited(m1) else m1)
  }

  function ConvertInner(h: Heap, r: Ref, seen: set<Ref>, m: Meter): (Result<JSValue, ConvError>, Meter)
    requires Closed(h) && r in h
    decreases h.Keys - seen, 0
  {
    match h[r]
    case Leaf(p) => ToJsInner(p, m)
    case ListNode(items) =>
      if r in seen then (Err(Circular), m)
      else
        var (m1, ok) := Pay(m, 16, Sat(8 * |items|));
        if !ok then (Err(TooBig), m1)
        else
          var (result, m2) := ConvertAll(h, items, seen + {r}, m1);
          (if result.Ok? then Ok(Array(result.value)) else Err(result.error), m2)
    case DictNode(entries) =>
      if r in seen then (Err(Circular), m)
      else
        var (m1, ok) := Pay(m, 24, Sat(16 * |entries|));
        if !ok then (Err(TooBig), m1)
        else
          var (result, m2) := ConvertEntries(h, entries, seen + {r}, m1);
          (if result.Ok? then Ok(Object(result.value)) else Err(result.error), m2)
    case SetNode(items) =>
      if r in seen then (Err(Circular), m)
      else
        var (m1, ok) := Pay(m, 24, Sat(8 * |items|));
        if !ok then (Err(TooBig), m1)
        else
          var (result, m2) := ConvertAll(h, items, seen + {r}, m1);
          (if result.Ok? then Ok(Set(result.value)) else Err(result.error), m2)
  }

  function ConvertAll(h: Heap, refs: seq<Ref>, seen: set<Ref>, m: Meter): (Result<seq<JSValue>, ConvError>, Meter)
    requires Closed(h) && AllIn(h, refs)
    decreases h.Keys - seen, 2, |refs|
  {
    if refs == [] then (Ok([]), m)
    else
      var (front, m1) := ConvertAll(h, refs[..|refs| - 1], seen, m);
      if front.Err? then (front, m1)
      else
        var (last, m2) := Convert(h, refs[|refs| - 1], seen, m1);
        (if last.Ok? then Ok(front.value + [last.value]) else Err(last.error), m2)
  }

  function ConvertEntries(h: Heap, entries: seq<RefEntry>, seen: set<Ref>, m: Meter): (Result<seq<Prop>, ConvError>, Meter)
    requires Closed(h) && AllIn(h, Refs(entries))
    decreases h.Keys - seen, 2, |entries|
  {
    if entries == [] then (Ok([]), m)
    else
      assert AllIn(h, Refs(entries[..|entries| - 1])) && Refs(entries)[|entries| - 1] in h;
      var (front, m1) := ConvertEntries(h, entries[..|entries| - 1], seen, m);
      if front.Err? then (front, m1)
      else
        var last := entries[|entries| - 1];
        var (value, m2) := ConvertEntry(h, last, seen, m1);
        (if value.Ok? then Ok(Insert(front.value, last.key.s, value.value)) else Err(value.error), m2)
  }

  function ConvertEntry(h: Heap, entry: RefEntry, seen: set<Ref>, m: Meter): (r: (Result<JSValue, ConvError>, Meter))
    requires Closed(h) && entry.ref in h
    ensures r.0.Ok? ==> entry.key.StrKey?
    decreases h.Keys - seen, 2, 0
  {
    if entry.key.OtherKey? then (Err(BadKey), m)
    else
      var (m1, ok) := Pay(m, Utf8Len(entry.key.s), 8);
      if ok then Convert(h, entry.ref, seen, m1) else (Err(TooBig), m1)
  }
}
