// Reachable cycles, by walks through the references, and what they have to do with whether an
// object graph converts.
module GraphCycles {
  import opened Wrappers
  import opened JsValue
  import opened Budget
  import opened PythonValues
  import opened ToJsBudget
  import opened ObjectGraph
  import opened GraphUnfolding

  // A reference leads from the i-th place to the next.
  predicate Link(h: Heap, p: seq<Ref>, i: nat)
    requires i + 1 < |p|
  {
    p[i] in h && p[i + 1] in Children(h[p[i]])
  }

  ghost predicate Walk(h: Heap, p: seq<Ref>) {
    && (forall i :: 0 <= i < |p| ==> p[i] in h)
    && (forall i :: 0 <= i < |p| - 1 ==> Link(h, p, i))
  }

  ghost predicate Simple(p: seq<Ref>) {
    forall i, j :: 0 <= i < j < |p| ==> p[i] != p[j]
  }

  // No walk from r ever comes back to a place it has been.
  ghost predicate Acyclic(h: Heap, r: Ref) {
    forall p :: p != [] && p[0] == r && Walk(h, p) ==> Simple(p)
  }

  // ---- an unfolding rules out cycles ----

  lemma {:induction false} ChildOfList(h: Heap, refs: seq<Ref>, ts: seq<PyValue>, c: Ref) returns (u: PyValue)
    requires UnrollsAll(h, refs, ts) && c in refs
    ensures Unrolls(h, c, u) && NeedOf(u).height <= NeedOfAll(ts).height
    decreases |ts|
  {
    var n := |ts| - 1;
    if c == refs[n] {
      u := ts[n];
    } else {
      u := ChildOfList(h, refs[..n], ts[..n], c);
    }
  }

  lemma {:induction false} ChildOfDict(h: Heap, entries: seq<RefEntry>, ts: seq<PyEntry>, i: nat) returns (u: PyValue)
    requires UnrollsEntries(h, entries, ts) && i < |entries|
    ensures Unrolls(h, entries[i].ref, u) && NeedOf(u).height <= NeedOfEntries(ts).height
    decreases |ts|
  {
    var n := |ts| - 1;
    if i == n {
      u := ts[n].value;
    } else {
      u := ChildOfDict(h, entries[..n], ts[..n], i);
    }
  }

  // Following one reference leads to a shorter tree.
  lemma Child(h: Heap, r: Ref, t: PyValue, c: Ref) returns (u: PyValue)
    requires Closed(h) && Unrolls(h, r, t) && c in Children(h[r])
    ensures Unrolls(h, c, u) && NeedOf(u).height < NeedOf(t).height
  {
    match h[r] {
      case ListNode(items) => u := ChildOfList(h, items, t.items, c);
      case SetNode(items) => u := ChildOfList(h, items, t.items, c);
      case DictNode(entries) =>
        var i :| 0 <= i < |entries| && Refs(entries)[i] == c;
        u := ChildOfDict(h, entries, t.entries, i);
      case Leaf(_) =>
    }
  }

  lemma WalkPart(h: Heap, p: seq<Ref>, i: nat, j: nat) returns (part: seq<Ref>)
    requires Walk(h, p) && i <= j < |p|
    ensures part != [] && Walk(h, part) && |part| == j - i + 1 && part[0] == p[i] && part[|part| - 1] == p[j]
  {
    part := p[i..j + 1];
    forall k | 0 <= k < |part| - 1 ensures Link(h, part, k) {
      assert Link(h, p, i + k) && part[k] == p[i + k] && part[k + 1] == p[i + k + 1];
    }
  }

  // Along a walk the trees get shorter and shorter.
  lemma {:induction false} WalkShrinks(h: Heap, p: seq<Ref>, t: PyValue) returns (u: PyValue)
    requires Closed(h) && p != [] && Walk(h, p) && Unrolls(h, p[0], t)
    ensures Unrolls(h, p[|p| - 1], u) && NeedOf(u).height + |p| <= NeedOf(t).height + 1
    decreases |p|
  {
    u := t;
    if |p| > 1 {
      assert Link(h, p, 0);
      var c := Child(h, p[0], t, p[1]);
      var rest := WalkPart(h, p, 1, |p| - 1);
      u := WalkShrinks(h, rest, c);
    }
  }

  lemma WalkNeverReturns(h: Heap, p: seq<Ref>, t: PyValue, i: nat, j: nat)
    requires Closed(h) && i < j < |p| && Walk(h, p) && Unrolls(h, p[0], t)
    ensures p[i] != p[j]
  {
    var first := WalkPart(h, p, 0, i);
    var second := WalkPart(h, p, i, j);
    var u := WalkShrinks(h, first, t);
    var w := WalkShrinks(h, second, u);
    if p[i] == p[j] {
      UnfoldingIsUnique(h, p[i], u, w);
    }
  }

  lemma UnfoldingIsAcyclic(h: Heap, r: Ref, t: PyValue)
    requires Closed(h) && Unrolls(h, r, t)
    ensures Acyclic(h, r)
  {
    forall p: seq<Ref> | p != [] && p[0] == r && Walk(h, p) ensures Simple(p) {
      forall i, j | 0 <= i < j < |p| ensures p[i] != p[j] {
        WalkNeverReturns(h, p, t, i, j);
      }
    }
  }

  // ---- no cycle, so there is an unfolding ----

  function Places(p: seq<Ref>): set<Ref> {
    set r | r in p
  }

  lemma WalkGrows(h: Heap, p: seq<Ref>, c: Ref)
    requires Closed(h) && p != [] && Walk(h, p) && c in Children(h[p[|p| - 1]])
    ensures c in h && Walk(h, p + [c])
  {
    var q := p + [c];
    assert c in h;
    forall i | 0 <= i < |q| - 1 ensures Link(h, q, i) {
      assert q[i] == p[i];
      assert i < |p| - 1 ==> q[i + 1] == p[i + 1] && Link(h, p, i);
    }
  }

  lemma LastIsNew(p: seq<Ref>, c: Ref)
    requires Simple(p + [c])
    ensures c !in Places(p)
  {
    forall i | 0 <= i < |p| ensures p[i] != c {
      assert (p + [c])[i] == p[i] && (p + [c])[|p|] == c;
    }
  }

  lemma FewerPlacesLeft(keys: set<Ref>, p: seq<Ref>, c: Ref)
    requires c in keys && c !in Places(p)
    ensures keys - Places(p + [c]) < keys - Places(p)
  {
    assert Places(p + [c]) == Places(p) + {c};
    assert c in keys - Places(p);
  }

  // One more step from the end of a walk reaches a new place.
  lemma StepIsNew(h: Heap, p: seq<Ref>, c: Ref)
    requires Closed(h) && p != [] && Walk(h, p) && Acyclic(h, p[0]) && c in Children(h[p[|p| - 1]])
    ensures c in h && Walk(h, p + [c]) && h.Keys - Places(p + [c]) < h.Keys - Places(p)
  {
    WalkGrows(h, p, c);
    assert (p + [c])[0] == p[0];
    LastIsNew(p, c);
    FewerPlacesLeft(h.Keys, p, c);
  }

  lemma UnrollsSnoc(h: Heap, refs: seq<Ref>, front: seq<PyValue>, last: PyValue)
    requires refs != [] && UnrollsAll(h, refs[..|refs| - 1], front) && Unrolls(h, refs[|refs| - 1], last)
    ensures UnrollsAll(h, refs, front + [last])
  {
    assert (front + [last])[..|front|] == front;
  }

  lemma EntriesSnoc(h: Heap, entries: seq<RefEntry>, front: seq<PyEntry>, last: PyEntry)
    requires entries != [] && UnrollsEntries(h, entries[..|entries| - 1], front) && UnrollsEntry(h, entries[|entries| - 1], last)
    ensures UnrollsEntries(h, entries, front + [last])
  {
    assert (front + [last])[..|front|] == front;
  }

  lemma {:induction false} Zipped(h: Heap, entries: seq<RefEntry>, us: seq<PyValue>) returns (ts: seq<PyEntry>)
    requires UnrollsAll(h, Refs(entries), us)
    ensures UnrollsEntries(h, entries, ts)
    decreases |entries|
  {
    ts := [];
    if entries != [] {
      var n := |entries| - 1;
      assert Refs(entries)[..n] == Refs(entries[..n]);
      var front := Zipped(h, entries[..n], us[..n]);
      ts := front + [PyEntry(entries[n].key, us[n])];
      EntriesSnoc(h, entries, front, ts[n]);
    }
  }

  // The tree unfolding of the place a walk has reached.
  lemma {:induction false} Unfold(h: Heap, p: seq<Ref>) returns (t: PyValue)
    requires Closed(h) && p != [] && Walk(h, p) && Acyclic(h, p[0])
    ensures Unrolls(h, p[|p| - 1], t)
    decreases h.Keys - Places(p), 1
  {
    var node := h[p[|p| - 1]];
    var ts := UnfoldChildren(h, p, |Children(node)|);
    assert Children(node)[..|Children(node)|] == Children(node);
    match node
    case Leaf(value) => t := value;
    case ListNode(items) => t := PyList(ts);
    case SetNode(items) => t := PySet(ts);
    case DictNode(entries) =>
      var es := Zipped(h, entries, ts);
      t := PyDict(es);
  }

  lemma {:induction false} UnfoldChildren(h: Heap, p: seq<Ref>, k: nat) returns (ts: seq<PyValue>)
    requires Closed(h) && p != [] && Walk(h, p) && Acyclic(h, p[0])
    requires k <= |Children(h[p[|p| - 1]])|
    ensures UnrollsAll(h, Children(h[p[|p| - 1]])[..k], ts)
    decreases h.Keys - Places(p), 0, k
  {
    ts := [];
    if k != 0 {
      var children := Children(h[p[|p| - 1]]);
      var front := UnfoldChildren(h, p, k - 1);
      var last := UnfoldChild(h, p, children[k - 1]);
      ts := front + [last];
      assert children[..k][..k - 1] == children[..k - 1];
      UnrollsSnoc(h, children[..k], front, last);
    }
  }

  lemma {:induction false} UnfoldChild(h: Heap, p: seq<Ref>, c: Ref) returns (t: PyValue)
    requires Closed(h) && p != [] && Walk(h, p) && Acyclic(h, p[0]) && c in Children(h[p[|p| - 1]])
    ensures Unrolls(h, c, t)
    decreases h.Keys - Places(p), 0, 0
  {
    StepIsNew(h, p, c);
    t := Unfold(h, p + [c]);
  }

  ghost predicate HasUnfolding(h: Heap, r: Ref) {
    exists t :: Unrolls(h, r, t)
  }

  // An object has a tree unfolding exactly when it reaches no cycle.
  lemma UnfoldsIffAcyclic(h: Heap, r: Ref)
    requires Closed(h) && r in h
    ensures HasUnfolding(h, r) <==> Acyclic(h, r)
  {
    if HasUnfolding(h, r) {
      var t :| Unrolls(h, r, t);
      UnfoldingIsAcyclic(h, r, t);
    }
    if Acyclic(h, r) {
      var t := Unfold(h, [r]);
    }
  }

  // ---- what converts ----

  lemma FollowsItsUnfolding(h: Heap, r: Ref, t: PyValue, m: Meter)
    requires Closed(h) && Unrolls(h, r, t)
    ensures Convert(h, r, {}, m) == ToJs(t, m)
  {
    FollowsUnfolding(h, r, t, {}, map[], m);
  }

  // Whatever converts has an unfolding.
  lemma {:induction false} ConvertedUnfolds(h: Heap, r: Ref, seen: set<Ref>, m: Meter) returns (t: PyValue)
    requires Closed(h) && r in h && Convert(h, r, seen, m).0.Ok?
    ensures Unrolls(h, r, t)
    decreases h.Keys - seen, 0
  {
    var entered := Entered(m).0;
    match h[r]
    case Leaf(p) => t := p;
    case ListNode(items) =>
      var ts := ConvertedUnfoldAll(h, items, seen + {r}, Pay(entered, 16, Sat(8 * |items|)).0);
      t := PyList(ts);
    case SetNode(items) =>
      var ts := ConvertedUnfoldAll(h, items, seen + {r}, Pay(entered, 24, Sat(8 * |items|)).0);
      t := PySet(ts);
    case DictNode(entries) =>
      var ts := ConvertedUnfoldEntries(h, entries, seen + {r}, Pay(entered, 24, Sat(16 * |entries|)).0);
      t := PyDict(ts);
  }

  lemma {:induction false} ConvertedUnfoldAll(h: Heap, refs: seq<Ref>, seen: set<Ref>, m: Meter) returns (ts: seq<PyValue>)
    requires Closed(h) && AllIn(h, refs) && ConvertAll(h, refs, seen, m).0.Ok?
    ensures UnrollsAll(h, refs, ts)
    decreases h.Keys - seen, 1, |refs|
  {
    ts := [];
    if refs != [] {
      var n := |refs| - 1;
      var front := ConvertedUnfoldAll(h, refs[..n], seen, m);
      var last := ConvertedUnfolds(h, refs[n], seen, ConvertAll(h, refs[..n], seen, m).1);
      ts := front + [last];
      UnrollsSnoc(h, refs, front, last);
    }
  }

  lemma {:induction false} ConvertedUnfoldEntries(h: Heap, entries: seq<RefEntry>, seen: set<Ref>, m: Meter)
    returns (ts: seq<PyEntry>)
    requires Closed(h) && AllIn(h, Refs(entries)) && ConvertEntries(h, entries, seen, m).0.Ok?
    ensures UnrollsEntries(h, entries, ts)
    decreases h.Keys - seen, 1, |entries|
  {
    ts := [];
    if entries != [] {
      var n, last := |entries| - 1, entries[|entries| - 1];
      assert AllIn(h, Refs(entries[..n])) && Refs(entries)[n] in h;
      var front := ConvertedUnfoldEntries(h, entries[..n], seen, m);
      var t := ConvertedUnfoldEntry(h, last, seen, ConvertEntries(h, entries[..n], seen, m).1);
      ts := front + [t];
      EntriesSnoc(h, entries, front, t);
    }
  }

  lemma {:induction false} ConvertedUnfoldEntry(h: Heap, entry: RefEntry, seen: set<Ref>, m: Meter) returns (t: PyEntry)
    requires Closed(h) && entry.ref in h && ConvertEntry(h, entry, seen, m).0.Ok?
    ensures UnrollsEntry(h, entry, t)
    decreases h.Keys - seen, 1, 0
  {
    var u := ConvertedUnfolds(h, entry.ref, seen, Pay(m, Utf8Len(entry.key.s), 8).0);
    t := PyEntry(entry.key, u);
  }

  ghost predicate UnfoldingFits(h: Heap, r: Ref, m: Meter) {
    exists t :: Unrolls(h, r, t) && Fits(m, NeedOf(t))
  }

  // An object converts exactly when it reaches no cycle and its unfolding is supported and
  // fits the limits; the result is that unfolding's image.
  lemma ConvertsIffUnfoldingFits(h: Heap, r: Ref, m: Meter)
    requires Closed(h) && r in h && MeterOk(m)
    ensures Convert(h, r, {}, m).0.Ok? <==> UnfoldingFits(h, r, m)
    ensures Convert(h, r, {}, m).0.Ok? ==> Acyclic(h, r)
    ensures forall t :: Convert(h, r, {}, m).0.Ok? && Unrolls(h, r, t) ==>
      Convert(h, r, {}, m).0.value == Shape(t) && Spent(m, Convert(h, r, {}, m).1, NeedOf(t))
  {
    forall t | Unrolls(h, r, t)
      ensures Acyclic(h, r)
      ensures Convert(h, r, {}, m).0.Ok? <==> Fits(m, NeedOf(t))
      ensures Convert(h, r, {}, m).0.Ok? ==>
        Convert(h, r, {}, m).0.value == Shape(t) && Spent(m, Convert(h, r, {}, m).1, NeedOf(t))
    {
      UnfoldingIsAcyclic(h, r, t);
      FollowsItsUnfolding(h, r, t, m);
      ConvertsIffItFits(t, m);
      YieldsShape(t, m);
    }
    if Convert(h, r, {}, m).0.Ok? {
      var t := ConvertedUnfolds(h, r, {}, m);
    }
  }

  // ---- cycle reports ----

  lemma {:induction false} TreesAreNotCircular(t: PyValue, m: Meter)
    ensures ToJs(t, m).0 != Err(Circular)
    decreases t, 0
  {
    var entered := Entered(m).0;
    match t {
      case PyList(items) => ListsAreNotCircular(items, Pay(entered, 16, Sat(8 * |items|)).0);
      case PySet(items) => ListsAreNotCircular(items, Pay(entered, 24, Sat(8 * |items|)).0);
      case PyDict(entries) => EntriesAreNotCircular(entries, Pay(entered, 24, Sat(16 * |entries|)).0);
      case _ =>
    }
  }

  lemma {:induction false} ListsAreNotCircular(items: seq<PyValue>, m: Meter)
    ensures ToJsAll(items, m).0 != Err(Circular)
    decreases items, 1
  {
    if items != [] {
      ListsAreNotCircular(items[..|items| - 1], m);
      TreesAreNotCircular(items[|items| - 1], ToJsAll(items[..|items| - 1], m).1);
    }
  }

  lemma {:induction false} EntriesAreNotCircular(entries: seq<PyEntry>, m: Meter)
    ensures ToJsEntries(entries, m).0 != Err(Circular)
    decreases entries, 1
  {
    if entries != [] {
      var front, last := entries[..|entries| - 1], entries[|entries| - 1];
      assert last.value < last;
      EntriesAreNotCircular(front, m);
      if last.key.StrKey? {
        TreesAreNotCircular(last.value, Pay(ToJsEntries(front, m).1, Utf8Len(last.key.s), 8).0);
      }
    }
  }

  // A circular reference is reported only when there is one: sharing alone is never an error.
  lemma CircularMeansCycle(h: Heap, r: Ref, m: Meter)
    requires Closed(h) && r in h && Convert(h, r, {}, m).0 == Err(Circular)
    ensures !Acyclic(h, r)
  {
    UnfoldsIffAcyclic(h, r);
    if HasUnfolding(h, r) {
      var t :| Unrolls(h, r, t);
      FollowsItsUnfolding(h, r, t, m);
      TreesAreNotCircular(t, m);
    }
  }

  // ---- without limits ----

  ghost predicate WalkTo(h: Heap, p: seq<Ref>, r: Ref, x: Ref) {
    p != [] && Walk(h, p) && p[0] == r && p[|p| - 1] == x
  }

  // What can be reached from r.
  ghost function Reached(h: Heap, r: Ref): set<Ref> {
    set x | x in h && exists p :: WalkTo(h, p, r, x)
  }

  predicate SupportedNode(node: Node) {
    match node
    case Leaf(p) => !Unsupportable(p)
    case DictNode(entries) => StringKeys(entries)
    case _ => true
  }

  predicate StringKeys(entries: seq<RefEntry>) {
    entries == [] || (StringKeys(entries[..|entries| - 1]) && entries[|entries| - 1].key.StrKey?)
  }

  // Everything reachable is supported.
  ghost predicate SupportedFrom(h: Heap, r: Ref) {
    forall x :: x in Reached(h, r) ==> SupportedNode(h[x])
  }

  // References lead from these objects to these objects only, and all are supported.
  ghost predicate SupportedSet(h: Heap, good: set<Ref>) {
    forall x :: x in good ==> x in h && SupportedNode(h[x]) && Among(Children(h[x]), good)
  }

  predicate Among(refs: seq<Ref>, good: set<Ref>) {
    forall i :: 0 <= i < |refs| ==> refs[i] in good
  }

  lemma ReachedStep(h: Heap, r: Ref, x: Ref, c: Ref)
    requires Closed(h) && x in Reached(h, r) && c in Children(h[x])
    ensures c in Reached(h, r)
  {
    var p :| WalkTo(h, p, r, x);
    WalkGrows(h, p, c);
    assert WalkTo(h, p + [c], r, c);
  }

  lemma ReachedIsSupportedSet(h: Heap, r: Ref)
    requires Closed(h) && r in h && SupportedFrom(h, r)
    ensures SupportedSet(h, Reached(h, r)) && r in Reached(h, r)
  {
    assert WalkTo(h, [r], r, r);
    forall x | x in Reached(h, r) ensures Among(Children(h[x]), Reached(h, r)) {
      forall i | 0 <= i < |Children(h[x])| ensures Children(h[x])[i] in Reached(h, r) {
        ReachedStep(h, r, x, Children(h[x])[i]);
      }
    }
  }

  lemma {:induction false} SupportedUnfolding(h: Heap, good: set<Ref>, r: Ref, t: PyValue)
    requires SupportedSet(h, good) && r in good && Unrolls(h, r, t)
    ensures NeedOf(t).fine
    decreases t, 0
  {
    assert SupportedNode(h[r]) && Among(Children(h[r]), good);
    match t
    case PyList(items) => SupportedUnfoldingAll(h, good, h[r].items, items);
    case PySet(items) => SupportedUnfoldingAll(h, good, h[r].items, items);
    case PyDict(entries) => SupportedUnfoldingEntries(h, good, h[r].entries, entries);
    case _ =>
  }

  lemma {:induction false} SupportedUnfoldingAll(h: Heap, good: set<Ref>, refs: seq<Ref>, ts: seq<PyValue>)
    requires SupportedSet(h, good) && Among(refs, good) && UnrollsAll(h, refs, ts)
    ensures NeedOfAll(ts).fine
    decreases ts, 1
  {
    if ts != [] {
      var n := |ts| - 1;
      SupportedUnfoldingAll(h, good, refs[..n], ts[..n]);
      SupportedUnfolding(h, good, refs[n], ts[n]);
    }
  }

  lemma FrontRefs(entries: seq<RefEntry>, good: set<Ref>)
    requires entries != [] && Among(Refs(entries), good)
    ensures Among(Refs(entries[..|entries| - 1]), good) && entries[|entries| - 1].ref in good
  {
    assert Refs(entries)[|entries| - 1] in good;
    assert forall i :: 0 <= i < |entries| - 1 ==> Refs(entries[..|entries| - 1])[i] == Refs(entries)[i];
  }

  lemma {:induction false} SupportedUnfoldingEntries(h: Heap, good: set<Ref>, entries: seq<RefEntry>, ts: seq<PyEntry>)
    requires SupportedSet(h, good) && Among(Refs(entries), good) && UnrollsEntries(h, entries, ts)
    requires StringKeys(entries)
    ensures NeedOfEntries(ts).fine
    decreases ts, 1
  {
    if ts != [] {
      var n := |ts| - 1;
      assert ts[n].value < ts[n];
      FrontRefs(entries, good);
      SupportedUnfoldingEntries(h, good, entries[..n], ts[..n]);
      SupportedUnfolding(h, good, entries[n].ref, ts[n].value);
    }
  }

  predicate Unlimited(m: Meter) {
    m.maxDepth == USIZE_MAX && m.maxBytes == USIZE_MAX
  }

  // Without limits and with supported leaves there is only one way to fail.
  ghost predicate OnlyCircular<T>(r: (Result<T, ConvError>, Meter)) {
    Unlimited(r.1) && (r.0.Ok? || r.0 == Err(Circular))
  }

  lemma {:induction false} FailsOnlyAsCircular(h: Heap, good: set<Ref>, r: Ref, seen: set<Ref>, m: Meter)
    requires Closed(h) && SupportedSet(h, good) && r in good && Unlimited(m)
    ensures OnlyCircular(Convert(h, r, seen, m))
    decreases h.Keys - seen, 1
  {
    var entered := Entered(m).0;
    assert SupportedNode(h[r]) && Among(Children(h[r]), good);
    if h[r].Leaf? || r in seen {
    } else {
      match h[r]
      case ListNode(items) => ListFailsOnlyAsCircular(h, good, items, seen + {r}, Pay(entered, 16, Sat(8 * |items|)).0);
      case SetNode(items) => ListFailsOnlyAsCircular(h, good, items, seen + {r}, Pay(entered, 24, Sat(8 * |items|)).0);
      case DictNode(entries) => DictFailsOnlyAsCircular(h, good, entries, seen + {r}, Pay(entered, 24, Sat(16 * |entries|)).0);
    }
  }

  lemma {:induction false} ListFailsOnlyAsCircular(h: Heap, good: set<Ref>, refs: seq<Ref>, seen: set<Ref>, m: Meter)
    requires Closed(h) && SupportedSet(h, good) && AllIn(h, refs) && Among(refs, good) && Unlimited(m)
    ensures OnlyCircular(ConvertAll(h, refs, seen, m))
    decreases h.Keys - seen, 2, |refs|
  {
    if refs != [] {
      var n := |refs| - 1;
      ListFailsOnlyAsCircular(h, good, refs[..n], seen, m);
      FailsOnlyAsCircular(h, good, refs[n], seen, ConvertAll(h, refs[..n], seen, m).1);
    }
  }

  lemma {:induction false} DictFailsOnlyAsCircular(h: Heap, good: set<Ref>, entries: seq<RefEntry>, seen: set<Ref>, m: Meter)
    requires Closed(h) && SupportedSet(h, good) && AllIn(h, Refs(entries)) && Among(Refs(entries), good) && Unlimited(m)
    requires StringKeys(entries)
    ensures OnlyCircular(ConvertEntries(h, entries, seen, m))
    decreases h.Keys - seen, 2, |entries|
  {
    if entries != [] {
      var n, last := |entries| - 1, entries[|entries| - 1];
      assert AllIn(h, Refs(entries[..n])) && Refs(entries)[n] in h;
      FrontRefs(entries, good);
      DictFailsOnlyAsCircular(h, good, entries[..n], seen, m);
      var m1 := ConvertEntries(h, entries[..n], seen, m).1;
      FailsOnlyAsCircular(h, good, last.ref, seen, Pay(m1, Utf8Len(last.key.s), 8).0);
    }
  }

  // Where limits do not bind and everything reachable is supported, an object converts exactly
  // when it reaches no cycle, and a cycle is reported as one.
  lemma WithoutLimitsOnlyCyclesFail(h: Heap, r: Ref)
    requires Closed(h) && r in h && SupportedFrom(h, r)
    ensures var result := Convert(h, r, {}, Meter(USIZE_MAX, USIZE_MAX, 0, 0)).0;
      (result.Ok? <==> Acyclic(h, r)) && (result == Err(Circular) <==> !Acyclic(h, r))
  {
    var m := Meter(USIZE_MAX, USIZE_MAX, 0, 0);
    ReachedIsSupportedSet(h, r);
    ConvertsIffUnfoldingFits(h, r, m);
    UnfoldsIffAcyclic(h, r);
    FailsOnlyAsCircular(h, Reached(h, r), r, {}, m);
    if HasUnfolding(h, r) {
      var t :| Unrolls(h, r, t);
      SupportedUnfolding(h, Reached(h, r), r, t);
      assert Fits(m, NeedOf(t));
    }
  }
}
