// What a Python set made of converted members holds.
module PySets {
  import opened Wrappers
  import opened JsValue
  import opened PythonValues
  import opened Budget
  import F = FromJsBudget

  // ---- equality of members ----

  // Numbers of any type compare by value.
  lemma NumbersCompareByValue(m: int, n: int, r: real, q: real, b: bool)
    ensures PyEqual(PyInt(m), PyInt(n)) <==> m == n
    ensures PyEqual(PyInt(m), PyFloat(Finite(r))) <==> m as real == r
    ensures PyEqual(PyFloat(Finite(r)), PyFloat(Finite(q))) <==> r == q
    ensures PyEqual(PyInt(m), PyBool(b)) <==> m == if b then 1 else 0
  {
  }

  predicate IsNumber(p: PyValue) {
    p.PyInt? || p.PyBool? || (p.PyFloat? && p.f.Finite?)
  }

  // Fresh proxies and NaN equal nothing; other members equal only themselves.
  lemma OthersEqualThemselves(a: PyValue, b: PyValue)
    requires !IsNumber(a)
    ensures PyEqual(a, b) <==> a == b && a != PyFloat(NaN) && !a.PyFunction? && !a.PyJsStream?
    ensures PyEqual(b, a) <==> PyEqual(a, b)
  {
  }

  lemma EqualityIsAnEquivalence(a: PyValue, b: PyValue, c: PyValue)
    ensures PyEqual(a, b) <==> PyEqual(b, a)
    ensures PyEqual(a, b) && PyEqual(b, c) ==> PyEqual(a, c)
  {
  }

  // ---- the members ----

  ghost predicate NoTwoEqual(members: seq<PyValue>) {
    forall i, j :: 0 <= i < j < |members| ==> !PyEqual(members[i], members[j])
  }

  // A member that was offered is in the set, or an equal one was there first.
  ghost predicate Represented(members: seq<PyValue>, p: PyValue) {
    p in members || exists i :: 0 <= i < |members| && PyEqual(members[i], p)
  }

  lemma OneMoreMember(members: seq<PyValue>, p: PyValue)
    requires NoTwoEqual(members)
    ensures NoTwoEqual(PySetAdd(members, p)) && Represented(PySetAdd(members, p), p)
    ensures members <= PySetAdd(members, p) <= members + [p]
    ensures forall q :: Represented(members, q) ==> Represented(PySetAdd(members, p), q)
  {
    var added := PySetAdd(members, p);
    forall q | Represented(members, q) ensures Represented(added, q) {
      if i: nat :| i < |members| && PyEqual(members[i], q) {
        assert added[i] == members[i];
      }
    }
  }

  // A member was made of one of the items.
  ghost predicate MadeOf(items: seq<JSValue>, p: PyValue) {
    exists i :: 0 <= i < |items| && p == F.Image(items[i])
  }

  lemma MadeOfMore(front: seq<JSValue>, last: JSValue, p: PyValue)
    requires MadeOf(front, p) || p == F.Image(last)
    ensures MadeOf(front + [last], p)
  {
    var items := front + [last];
    if MadeOf(front, p) {
      var i :| 0 <= i < |front| && p == F.Image(front[i]);
      assert items[i] == front[i];
    } else {
      assert items[|front|] == last;
    }
  }

  lemma {:induction false} NothingElseIsIn(items: seq<JSValue>, p: PyValue)
    requires p in F.ImageSet(items)
    ensures MadeOf(items, p)
    decreases |items|
  {
    if items != [] {
      var front, last := items[..|items| - 1], items[|items| - 1];
      if p in F.ImageSet(front) {
        NothingElseIsIn(front, p);
      }
      MadeOfMore(front, last, p);
      assert items == front + [last];
    }
  }

  lemma {:induction false} EachIsIn(items: seq<JSValue>)
    ensures NoTwoEqual(F.ImageSet(items))
    ensures forall i :: 0 <= i < |items| ==> Represented(F.ImageSet(items), F.Image(items[i]))
    decreases |items|
  {
    if items != [] {
      var front := items[..|items| - 1];
      EachIsIn(front);
      OneMoreMember(F.ImageSet(front), F.Image(items[|items| - 1]));
      assert forall i :: 0 <= i < |front| ==> items[i] == front[i];
    }
  }

  // The set made of an array's members holds each of them, or one equal to it, and nothing else,
  // and no two of its members are equal.
  lemma SetsHoldTheirMembers(items: seq<JSValue>)
    ensures var members := F.ImageSet(items);
      && NoTwoEqual(members)
      && (forall i :: 0 <= i < |items| ==> Represented(members, F.Image(items[i])))
      && (forall p :: p in members ==> MadeOf(items, p))
  {
    EachIsIn(items);
    forall p | p in F.ImageSet(items) ensures MadeOf(items, p) {
      NothingElseIsIn(items, p);
    }
  }

  // ---- dictionaries ----

  // Setting a key gives it the value, in its place or at the end, and leaves the others alone.
  lemma DictsSetOneKey(entries: seq<PyEntry>, key: string, value: PyValue)
    ensures var after := PyDictSet(entries, key, value);
      && PyEntry(StrKey(key), value) in after
      && (forall e :: e in entries && e.key != StrKey(key) ==> e in after)
      && (forall e :: e in after ==> e in entries || e == PyEntry(StrKey(key), value))
      && (forall i :: 0 <= i < |entries| ==> after[i].key == entries[i].key)
      && |after| == |entries| + if exists i :: 0 <= i < |entries| && entries[i].key == StrKey(key) then 0 else 1
  {
    var after, i := PyDictSet(entries, key, value), EntryOf(entries, key);
    assert after[if i.Some? then i.value else |entries|] == PyEntry(StrKey(key), value);
    forall e | e in entries && e.key != StrKey(key) ensures e in after {
      var k :| 0 <= k < |entries| && entries[k] == e;
      assert after[k] == e;
    }
  }

  // ---- what can be a member ----

  lemma {:induction false} MembersAreScalars(items: seq<JSValue>, handle: bool, i: nat)
    requires i < |items| && F.NeedOfSet(items, handle).fine
    ensures var p := F.Image(items[i]); !p.PyList? && !p.PyDict? && !p.PySet?
    decreases |items|
  {
    if i < |items| - 1 {
      MembersAreScalars(items[..|items| - 1], handle, i);
    }
  }

  // A JavaScript set converts only if none of its members becomes a list, a dict or a set.
  lemma SetsHoldScalars(items: seq<JSValue>, handle: bool, m: Meter, i: nat)
    requires MeterOk(m) && i < |items| && FromJs(Set(items), handle, m).0.Ok?
    ensures var p := F.Image(items[i]); !p.PyList? && !p.PyDict? && !p.PySet?
  {
    F.ConvertsIffItFits(Set(items), handle, m);
    assert F.NeedOf(Set(items), handle).fine == F.NeedOfSet(items, handle).fine;
    MembersAreScalars(items, handle, i);
  }
}
