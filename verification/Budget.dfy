// Spending from one meter: what a conversion needs, when that fits, and what it leaves.
module Budget {
  import opened JsValue

  // Two add_bytes calls in a row; the second is not reached if the first is refused.
  function Pay(m: Meter, a: nat, b: nat): (Meter, bool) {
    var (m1, ok) := Charged(m, a);
    if ok then Charged(m1, b) else (m1, false)
  }

  // Whether a value converts at all, how many levels it nests and how many bytes it costs.
  datatype Need = Need(fine: bool, height: nat, cost: nat)

  const NOTHING := Need(true, 0, 0)

  function Max(a: nat, b: nat): nat {
    if a < b then b else a
  }

  // Two siblings: each must fit in depth, their costs add up.
  function Both(a: Need, b: Need): Need {
    Need(a.fine && b.fine, Max(a.height, b.height), a.cost + b.cost)
  }

  function Costing(cost: nat, need: Need): Need {
    need.(cost := cost + need.cost)
  }

  function Nested(need: Need): Need {
    need.(height := 1 + need.height)
  }

  predicate Fits(m: Meter, need: Need) {
    need.fine && Sat(m.depth + need.height) <= m.maxDepth && Sat(m.bytes + need.cost) <= m.maxBytes
  }

  // The byte counter has grown by the cost; the depth counter is back where it was, unless it
  // ran into the top of its machine word on the way.
  predicate Spent(m: Meter, m1: Meter, need: Need) {
    && m1.maxDepth == m.maxDepth && m1.maxBytes == m.maxBytes
    && m1.bytes == Sat(m.bytes + need.cost)
    && m1.depth <= m.depth
    && (m.depth + need.height <= USIZE_MAX ==> m1.depth == m.depth)
  }

  // A conversion succeeds exactly when its need fits, and then spends exactly that.
  predicate Exact(m: Meter, need: Need, ok: bool, m1: Meter) {
    (ok <==> Fits(m, need)) && (ok ==> Spent(m, m1, need))
  }

  lemma SpentIsOk(m: Meter, need: Need, m1: Meter)
    requires MeterOk(m) && Fits(m, need) && Spent(m, m1, need)
    ensures MeterOk(m1)
  {
  }

  lemma ExactInTurn(m: Meter, need1: Need, ok1: bool, m1: Meter, need2: Need, ok2: bool, m2: Meter)
    requires MeterOk(m) && Exact(m, need1, ok1, m1)
    requires ok1 ==> Exact(m1, need2, ok2, m2)
    ensures Exact(m, Both(need1, need2), ok1 && ok2, m2)
  {
    if ok1 && m.maxDepth < USIZE_MAX {
      assert m1.depth == m.depth;
    }
  }

  lemma ExactAfterPaying(m: Meter, a: nat, b: nat, need: Need, ok: bool, m2: Meter)
    requires MeterOk(m)
    requires Pay(m, a, Sat(b)).1 ==> Exact(Pay(m, a, Sat(b)).0, need, ok, m2)
    ensures Exact(m, Costing(a + b, need), Pay(m, a, Sat(b)).1 && ok, m2)
    ensures Pay(m, a, Sat(b)).1 ==> MeterOk(Pay(m, a, Sat(b)).0)
  {
  }

  lemma ExactInside(m: Meter, need: Need, ok: bool, m1: Meter)
    requires MeterOk(m)
    requires Entered(m).1 ==> Exact(Entered(m).0, need, ok, m1)
    ensures Exact(m, Nested(need), Entered(m).1 && ok, Exited(m1))
    ensures Entered(m).1 ==> MeterOk(Entered(m).0)
  {
  }
}
