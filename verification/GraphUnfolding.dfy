// The conversion of an object graph is the conversion of its tree unfolding, and an unfolding
// exists exactly when no cycle can be reached.
module GraphUnfolding {
  import opened JsValue
  import opened Budget
  import opened PythonValues
  import opened ToJsBudget
  import opened ObjectGraph

  // t is the tree seen by following references from r.
  predicate Unrolls(h: Heap, r: Ref, t: PyValue)
    decreases t, 0
  {
    r in h &&
    match t
    case PyList(items) => h[r].ListNode? && UnrollsAll(h, h[r].items, items)
    case PySet(items) => h[r].SetNode? && UnrollsAll(h, h[r].items, items)
    case PyDict(entries) => h[r].DictNode? && UnrollsEntries(h, h[r].entries, entries)
    case _ => h[r] == Leaf(t)
  }

  predicate UnrollsAll(h: Heap, refs: seq<Ref>, ts: seq<PyValue>)
    decreases ts, 1
  {
    |refs| == |ts| &&
    (ts == [] || (UnrollsAll(h, refs[..|ts| - 1], ts[..|ts| - 1]) && Unrolls(h, refs[|ts| - 1], ts[|ts| - 1])))
  }

  predicate UnrollsEntries(h: Heap, entries: seq<RefEntry>, ts: seq<PyEntry>)
    decreases ts, 1
  {
    |entries| == |ts| &&
    (ts == [] ||
     (UnrollsEntries(h, entries[..|ts| - 1], ts[..|ts| - 1]) && UnrollsEntry(h, entries[|ts| - 1], ts[|ts| - 1])))
  }

  predicate UnrollsEntry(h: Heap, entry: RefEntry, t: PyEntry)
    decreases t, 1
  {
    entry.key == t.key && Unrolls(h, entry.ref, t.value)
  }

  // ---- an unfolding is unique ----

  lemma {:induction false} UnfoldingIsUnique(h: Heap, r: Ref, t: PyValue, u: PyValue)
    requires Unrolls(h, r, t) && Unrolls(h, r, u) && Closed(h)
    ensures t == u
    decreases t, 0
  {
    match t
    case PyList(items) => UniqueAll(h, h[r].items, items, u.items);
    case PySet(items) => UniqueAll(h, h[r].items, items, u.items);
    case PyDict(entries) => UniqueEntries(h, h[r].entries, entries, u.entries);
    case _ =>
  }

  lemma {:induction false} UniqueAll(h: Heap, refs: seq<Ref>, ts: seq<PyValue>, us: seq<PyValue>)
    requires UnrollsAll(h, refs, ts) && UnrollsAll(h, refs, us) && Closed(h)
    ensures ts == us
    decreases ts, 1
  {
    if ts != [] {
      var n := |ts| - 1;
      UniqueAll(h, refs[..n], ts[..n], us[..n]);
      UnfoldingIsUnique(h, refs[n], ts[n], us[n]);
      assert ts == ts[..n] + [ts[n]] && us == us[..n] + [us[n]];
    }
  }

  lemma {:induction false} UniqueEntries(h: Heap, entries: seq<RefEntry>, ts: seq<PyEntry>, us: seq<PyEntry>)
    requires UnrollsEntries(h, entries, ts) && UnrollsEntries(h, entries, us) && Closed(h)
    ensures ts == us
    decreases ts, 1
  {
    if ts != [] {
      var n := |ts| - 1;
      UniqueEntries(h, entries[..n], ts[..n], us[..n]);
      assert ts[n].value < ts[n];
      UnfoldingIsUnique(h, entries[n].ref, ts[n].value, us[n].value);
      assert ts == ts[..n] + [ts[n]] && us == us[..n] + [us[n]];
    }
  }

  // ---- the conversion follows the unfolding ----

  // Every container on the current path unfolds to a taller tree than what is still to come.
  ghost predicate Above(h: Heap, seen: set<Ref>, trees: map<Ref, PyValue>, height: nat) {
    trees.Keys == seen && forall s :: s in trees ==> Unrolls(h, s, trees[s]) && NeedOf(trees[s]).height > height
  }

  lemma AboveLower(h: Heap, seen: set<Ref>, trees: map<Ref, PyValue>, high: nat, low: nat)
    requires Above(h, seen, trees, high) && low <= high
    ensures Above(h, seen, trees, low)
  {
  }

  lemma PathAvoids(h: Heap, r: Ref, t: PyValue, seen: set<Ref>, trees: map<Ref, PyValue>)
    requires Closed(h) && Unrolls(h, r, t) && Above(h, seen, trees, NeedOf(t).height)
    ensures r !in seen
    ensures Above(h, seen + {r}, trees[r := t], InnerNeed(t).height)
  {
    if r in seen {
      UnfoldingIsUnique(h, r, t, trees[r]);
    }
  }

  lemma {:induction false} FollowsUnfolding(h: Heap, r: Ref, t: PyValue, seen: set<Ref>, trees: map<Ref, PyValue>, m: Meter)
    requires Closed(h) && Unrolls(h, r, t) && Above(h, seen, trees, NeedOf(t).height)
    ensures Convert(h, r, seen, m) == ToJs(t, m)
    decreases t, 1
  {
    InnerFollows(h, r, t, seen, trees, Entered(m).0);
  }

  lemma {:induction false} InnerFollows(h: Heap, r: Ref, t: PyValue, seen: set<Ref>, trees: map<Ref, PyValue>, m: Meter)
    requires Closed(h) && Unrolls(h, r, t) && Above(h, seen, trees, NeedOf(t).height)
    ensures ConvertInner(h, r, seen, m) == ToJsInner(t, m)
    decreases t, 0
  {
    PathAvoids(h, r, t, seen, trees);
    match t
    case PyList(items) => AllFollow(h, h[r].items, items, seen + {r}, trees[r := t], Pay(m, 16, Sat(8 * |items|)).0);
    case PySet(items) => AllFollow(h, h[r].items, items, seen + {r}, trees[r := t], Pay(m, 24, Sat(8 * |items|)).0);
    case PyDict(entries) =>
      EntriesFollow(h, h[r].entries, entries, seen + {r}, trees[r := t], Pay(m, 24, Sat(16 * |entries|)).0);
    case _ =>
  }

  lemma {:induction false} AllFollow(h: Heap, refs: seq<Ref>, ts: seq<PyValue>, seen: set<Ref>, trees: map<Ref, PyValue>, m: Meter)
    requires Closed(h) && UnrollsAll(h, refs, ts) && AllIn(h, refs) && Above(h, seen, trees, NeedOfAll(ts).height)
    ensures ConvertAll(h, refs, seen, m) == ToJsAll(ts, m)
    decreases ts, 1
  {
    if ts != [] {
      var n := |ts| - 1;
      AllFollow(h, refs[..n], ts[..n], seen, trees, m);
      FollowsUnfolding(h, refs[n], ts[n], seen, trees, ToJsAll(ts[..n], m).1);
    }
  }

  lemma {:induction false} EntriesFollow(h: Heap, entries: seq<RefEntry>, ts: seq<PyEntry>, seen: set<Ref>, trees: map<Ref, PyValue>, m: Meter)
    requires Closed(h) && UnrollsEntries(h, entries, ts) && AllIn(h, Refs(entries))
    requires Above(h, seen, trees, NeedOfEntries(ts).height)
    ensures ConvertEntries(h, entries, seen, m) == ToJsEntries(ts, m)
    decreases ts, 1
  {
    if ts != [] {
      var n := |ts| - 1;
      assert AllIn(h, Refs(entries[..n])) && Refs(entries)[n] in h;
      AboveLower(h, seen, trees, NeedOfEntries(ts).height, NeedOfEntries(ts[..n]).height);
      AboveLower(h, seen, trees, NeedOfEntries(ts).height, NeedOfEntry(ts[n]).height);
      EntriesFollow(h, entries[..n], ts[..n], seen, trees, m);
      EntryFollows(h, entries[n], ts[n], seen, trees, ToJsEntries(ts[..n], m).1);
    }
  }

  lemma {:induction false} EntryFollows(h: Heap, entry: RefEntry, t: PyEntry, seen: set<Ref>, trees: map<Ref, PyValue>, m: Meter)
    requires Closed(h) && entry.ref in h && UnrollsEntry(h, entry, t)
    requires Above(h, seen, trees, NeedOf(t.value).height)
    ensures ConvertEntry(h, entry, seen, m) == EntryToJs(t, m)
    decreases t, 1
  {
    if t.key.StrKey? {
      assert t.value < t;
      FollowsUnfolding(h, entry.ref, t.value, seen, trees, Pay(m, Utf8Len(t.key.s), 8).0);
    }
  }
}
