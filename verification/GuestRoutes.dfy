// The two ways a host value becomes a guest value: built directly (`js_value_to_v8`), or
// serialized, materialized by serde and then revived by the bridge script.
module GuestRoutes {
  import opened Wrappers
  import opened JsValue
  import opened WireCodec
  import opened WireRoundTrip
  import Decimal

  datatype GProp = GProp(key: string, value: Guest)

  datatype Guest =
    | GUndefined
    | GNull
    | GBool(b: bool)
    | GNumber(f: F64)
    | GBigInt(n: int)
    | GString(s: string)
    | GBytes(bytes: seq<byte>)
    | GArray(items: seq<Guest>)
    | GObject(props: seq<GProp>)
    | GDate(time: F64)
    | GSet(items: seq<Guest>)
    | GStream(id: int)

  const MAX_SAFE: int := 0x1F_FFFF_FFFF_FFFF   // 2^53 - 1

  predicate Primitive(g: Guest) {
    g.GUndefined? || g.GNull? || g.GBool? || g.GNumber? || g.GBigInt? || g.GString?
  }

  // Set.add: primitives are compared by value, every object is new.
  function AddToSet(items: seq<Guest>, g: Guest): seq<Guest> {
    if Primitive(g) && g in items then items else items + [g]
  }

  function AddAll(items: seq<Guest>): seq<Guest> {
    if items == [] then [] else AddToSet(AddAll(items[..|items| - 1]), items[|items| - 1])
  }

  // A time value is a whole number of milliseconds in a range, or invalid.
  function TimeClip(f: F64): F64 {
    if f.Finite? && -8640000000000000.0 <= f.value <= 8640000000000000.0 then
      Finite(if f.value < 0.0 then -((-f.value).Floor) as real else f.value.Floor as real)
    else NaN
  }

  // Dates reach a hundred million days from the epoch, and no further.
  lemma DatesSpanDays(ms: int)
    ensures var days := 100_000_000 * 86_400_000;
      TimeClip(Finite(ms as real)) == if -days <= ms <= days then Finite(ms as real) else NaN
  {
    WholeFloor(ms);
    WholeFloor(-ms);
    assert -(ms as real) == (-ms) as real;
  }

  lemma WholeFloor(n: int)
    ensures (n as real).Floor == n
  {
  }

  predicate IsObject(g: Guest) {
    g.GArray? || g.GObject? || g.GBytes? || g.GDate? || g.GSet? || g.GStream?
  }

  // A set keeps the first of equal primitives and every object, in order.
  lemma {:induction false} SetsKeepTheFirst(items: seq<Guest>)
    ensures forall g :: g in AddAll(items) <==> g in items
    ensures forall i, j :: 0 <= i < j < |AddAll(items)| && !IsObject(AddAll(items)[i]) ==> AddAll(items)[i] != AddAll(items)[j]
    ensures (forall i, j :: 0 <= i < j < |items| && !IsObject(items[i]) ==> items[i] != items[j]) ==> AddAll(items) == items
    decreases |items|
  {
    if items != [] {
      var front, last := items[..|items| - 1], items[|items| - 1];
      SetsKeepTheFirst(front);
      assert items == front + [last];
    }
  }

  // ---- BigInt words ----

  function LittleEndian(n: nat): seq<byte> {
    if n < 256 then [n] else [n % 256] + LittleEndian(n / 256)
  }

  function FromLittleEndian(bytes: seq<byte>): nat {
    if bytes == [] then 0 else bytes[0] + 256 * FromLittleEndian(bytes[1..])
  }

  const WORD: nat := 0x1_0000_0000_0000_0000

  function WordsValue(words: seq<nat>): nat {
    if words == [] then 0 else words[0] + WORD * WordsValue(words[1..])
  }

  function Words(bytes: seq<byte>): seq<nat> {
    if bytes == [] then []
    else if |bytes| <= 8 then [FromLittleEndian(bytes)]
    else [FromLittleEndian(bytes[..8])] + Words(bytes[8..])
  }

  lemma {:induction false} LittleEndianReads(n: nat)
    ensures FromLittleEndian(LittleEndian(n)) == n
    decreases n
  {
    if n < 256 {
      assert LittleEndian(n)[1..] == [];
    } else {
      LittleEndianReads(n / 256);
      assert LittleEndian(n)[1..] == LittleEndian(n / 256);
    }
  }

  lemma TimesPow256(k: nat, high: nat)
    requires k > 0
    ensures 256 * (Pow256(k - 1) * high) == Pow256(k) * high
  {
  }

  lemma {:induction false} LittleEndianSplits(bytes: seq<byte>, k: nat)
    requires k <= |bytes|
    ensures FromLittleEndian(bytes) == FromLittleEndian(bytes[..k]) + Pow256(k) * FromLittleEndian(bytes[k..])
    decreases k
  {
    if k == 0 {
      assert bytes[..0] == [] && bytes[0..] == bytes;
    } else {
      LittleEndianSplits(bytes[1..], k - 1);
      assert bytes[..k][1..] == bytes[1..][..k - 1] && bytes[1..][k - 1..] == bytes[k..];
      var low, high := FromLittleEndian(bytes[1..][..k - 1]), FromLittleEndian(bytes[k..]);
      var above := Pow256(k - 1) * high;
      TimesPow256(k, high);
      assert FromLittleEndian(bytes[1..]) == low + above;
      assert FromLittleEndian(bytes[..k]) == bytes[0] + 256 * low;
    }
  }

  lemma EightBytesAreAWord()
    ensures Pow256(8) == WORD
  {
    assert Pow256(2) == 0x1_0000;
    assert Pow256(4) == 0x1_0000_0000;
    assert Pow256(6) == 0x1_0000_0000_0000;
  }

  lemma {:induction false} WordsKeepTheValue(bytes: seq<byte>)
    ensures WordsValue(Words(bytes)) == FromLittleEndian(bytes)
    decreases |bytes|
  {
    if |bytes| > 8 {
      LittleEndianSplits(bytes, 8);
      EightBytesAreAWord();
      WordsKeepTheValue(bytes[8..]);
      assert Words(bytes)[1..] == Words(bytes[8..]);
    } else if bytes != [] {
      assert Words(bytes)[1..] == [];
    }
  }

  lemma {:induction false} TrailingZeros(bytes: seq<byte>, zeros: nat)
    ensures FromLittleEndian(bytes + seq(zeros, _ => 0)) == FromLittleEndian(bytes)
    decreases |bytes| + zeros
  {
    var padded := bytes + seq(zeros, _ => 0);
    if bytes != [] {
      assert padded[1..] == bytes[1..] + seq(zeros, _ => 0);
      TrailingZeros(bytes[1..], zeros);
    } else if zeros > 0 {
      assert padded[1..] == [] + seq(zeros - 1, _ => 0);
      TrailingZeros([], zeros - 1);
    }
  }

  // Eight bytes at a time, the last chunk padded with zeros.
  method PackWords(bytes: seq<byte>) returns (words: seq<nat>)
    ensures words == Words(bytes)
    ensures WordsValue(words) == FromLittleEndian(bytes)
  {
    words := [];
    var at := 0;
    while at < |bytes|
      invariant 0 <= at <= |bytes|
      invariant words + Words(bytes[at..]) == Words(bytes)
    {
      var end := if at + 8 < |bytes| then at + 8 else |bytes|;
      var chunk := bytes[at..end];
      var buf := chunk + seq(8 - |chunk|, _ => 0);
      TrailingZeros(chunk, 8 - |chunk|);
      assert chunk == bytes[at..][..end - at] && bytes[at..][end - at..] == bytes[end..];
      assert end == |bytes| ==> chunk == bytes[at..] && bytes[end..] == [];
      assert Words(bytes[at..]) == [FromLittleEndian(buf)] + Words(bytes[end..]);
      words := words + [FromLittleEndian(buf)];
      at := end;
    }
    assert Words(bytes[at..]) == [];
    WordsKeepTheValue(bytes);
  }

  // V8 reads the words back under the sign bit.
  function BigIntFromWords(negative: bool, words: seq<nat>): int {
    if negative then -(WordsValue(words) as int) else WordsValue(words)
  }

  lemma BigIntWordsExact(n: int)
    ensures BigIntFromWords(n < 0, Words(LittleEndian(Abs(n)))) == n
  {
    LittleEndianReads(Abs(n));
    WordsKeepTheValue(LittleEndian(Abs(n)));
  }

  // ---- the direct route ----

  // None: JsStream values cannot be sent back, and functions need the registry.
  function ToGuest(v: JSValue): Option<Guest>
    decreases v, 0
  {
    match v
    case Undefined => Some(GUndefined)
    case Null => Some(GNull)
    case Bool(b) => Some(GBool(b))
    case Int(i) => Some(GNumber(Finite(i as real)))
    case BigInt(n) => Some(GBigInt(BigIntFromWords(n < 0, Words(LittleEndian(Abs(n))))))
    case Float(f) => Some(GNumber(f))
    case Str(s) => Some(GString(s))
    case Bytes(bytes) => Some(GBytes(bytes))
    case Array(items) =>
      var all := ToGuests(items);
      if all.Some? then Some(GArray(all.value)) else None
    case Set(items) =>
      var all := ToGuests(items);
      if all.Some? then Some(GSet(AddAll(all.value))) else None
    case Object(props) =>
      var all := ToGuestProps(props);
      if all.Some? then Some(GObject(all.value)) else None
    case Date(ms) => Some(GDate(TimeClip(Finite(ms as real))))
    case PyStream(id) => Some(GStream(id))
    case Function(_) => None
    case JsStream(_) => None
  }

  function ToGuests(items: seq<JSValue>): Option<seq<Guest>>
    decreases items, 1
  {
    if items == [] then Some([])
    else
      var front := ToGuests(items[..|items| - 1]);
      var last := ToGuest(items[|items| - 1]);
      if front.Some? && last.Some? then Some(front.value + [last.value]) else None
  }

  function ToGuestProps(props: seq<Prop>): Option<seq<GProp>>
    decreases props, 1
  {
    if props == [] then Some([])
    else
      var front := ToGuestProps(props[..|props| - 1]);
      var last := ToGuest(props[|props| - 1].value);
      if front.Some? && last.Some? then Some(front.value + [GProp(props[|props| - 1].key, last.value)]) else None
  }

  // ---- the serialized route ----

  // serde_v8: integers beyond the safe range become BigInts.
  function Materialize(item: Item): Guest {
    match item
    case INone => GNull
    case IUnit => GUndefined
    case IBool(b) => GBool(b)
    case IInt(i) => if -MAX_SAFE <= i <= MAX_SAFE then GNumber(Finite(i as real)) else GBigInt(i)
    case IFloat(f) => GNumber(f)
    case IStr(s) => GString(s)
    case IBytes(bytes) => GBytes(bytes)
    case ISeq(items) => GArray(seq(|items|, i requires 0 <= i < |items| => Materialize(items[i])))
    case IMap(entries) =>
      GObject(seq(|entries|, i requires 0 <= i < |entries| => GProp(entries[i].key, Materialize(entries[i].value))))
  }

  function GIndexOf(props: seq<GProp>, key: string): (r: Option<nat>)
    ensures r.Some? ==> r.value < |props| && props[r.value].key == key
  {
    if props == [] then None
    else if props[|props| - 1].key == key then Some(|props| - 1)
    else GIndexOf(props[..|props| - 1], key)
  }

  function GGet(props: seq<GProp>, key: string): Option<Guest> {
    var i := GIndexOf(props, key);
    if i.Some? then Some(props[i.value].value) else None
  }

  datatype Thrown = BadBigInt

  function BigIntOf(payload: Option<Guest>): Result<Guest, Thrown> {
    match payload
    case Some(GString(s)) =>
      var n := Decimal.Parse(s);
      if n.Some? then Ok(GBigInt(n.value)) else Err(BadBigInt)
    case Some(GNumber(Finite(r))) => if r == r.Floor as real then Ok(GBigInt(r.Floor)) else Err(BadBigInt)
    case Some(GBigInt(n)) => Ok(GBigInt(n))
    case Some(GBool(b)) => Ok(GBigInt(if b then 1 else 0))
    case _ => Err(BadBigInt)
  }

  function DateOf(payload: Option<Guest>): Guest {
    match payload
    case Some(GNumber(f)) => GDate(TimeClip(f))
    case _ => GDate(NaN)
  }

  function StreamOf(payload: Option<Guest>): Guest {
    match payload
    case Some(GNumber(Finite(r))) => GStream(r.Floor)
    case _ => GStream(0)
  }

  function TagOfGuest(props: seq<GProp>): KnownTag {
    match GGet(props, TYPE_TAG)
    case Some(GString(s)) => TagOf(s)
    case _ => OtherTag
  }

  function Revive(g: Guest): Result<Guest, Thrown>
    decreases g, 0
  {
    match g
    case GArray(items) =>
      var revived :- ReviveAll(items);
      Ok(GArray(revived))
    case GObject(props) =>
      (match TagOfGuest(props)
       case UndefinedTag => Ok(GUndefined)
       case DateTag => Ok(DateOf(GGet(props, DATE_EPOCH_KEY)))
       case SetTag =>
         var i := GIndexOf(props, SET_VALUES_KEY);
         if i.Some? && props[i.value].value.GArray? then
           var revived :- ReviveAll(props[i.value].value.items);
           Ok(GSet(AddAll(revived)))
         else Ok(GSet([]))
       case BigIntTag => BigIntOf(GGet(props, BIGINT_VALUE_KEY))
       case PyStreamTag => Ok(StreamOf(GGet(props, STREAM_ID_KEY)))
       case _ =>
         var revived :- ReviveProps(props);
         Ok(GObject(revived)))
    // Host objects have no own enumerable entries to copy.
    case GDate(_) => Ok(GObject([]))
    case GSet(_) => Ok(GObject([]))
    case GStream(_) => Ok(GObject([]))
    case _ => Ok(g)
  }

  // What the payloads of numbers and text are revived to.
  lemma TaggedRevives(props: seq<GProp>, tag: string, n: int)
    requires GGet(props, TYPE_TAG) == Some(GString(tag))
    ensures tag == UNDEFINED_TYPE ==> Revive(GObject(props)) == Ok(GUndefined)
    ensures tag == DATE_TYPE && GGet(props, DATE_EPOCH_KEY) == Some(GNumber(Finite(n as real))) ==>
      var days := 100_000_000 * 86_400_000;
      Revive(GObject(props)) == Ok(GDate(if -days <= n <= days then Finite(n as real) else NaN))
    ensures tag == BIGINT_TYPE && GGet(props, BIGINT_VALUE_KEY) == Some(GNumber(Finite(n as real))) ==>
      Revive(GObject(props)) == Ok(GBigInt(n))
    ensures tag == PY_STREAM_TYPE && GGet(props, STREAM_ID_KEY) == Some(GNumber(Finite(n as real))) ==>
      Revive(GObject(props)) == Ok(GStream(n))
  {
    KnownTags();
    DatesSpanDays(n);
    WholeFloor(n);
  }

  function ReviveAll(items: seq<Guest>): Result<seq<Guest>, Thrown>
    decreases items, 1
  {
    if items == [] then Ok([])
    else
      var front :- ReviveAll(items[..|items| - 1]);
      var last :- Revive(items[|items| - 1]);
      Ok(front + [last])
  }

  function ReviveProps(props: seq<GProp>): Result<seq<GProp>, Thrown>
    decreases props, 1
  {
    if props == [] then Ok([])
    else
      var front :- ReviveProps(props[..|props| - 1]);
      var last :- Revive(props[|props| - 1].value);
      Ok(front + [GProp(props[|props| - 1].key, last)])
  }

  function ViaWire(v: JSValue): Option<Result<Guest, Thrown>> {
    match Encode(v)
    case Ok(item) => Some(Revive(Materialize(item)))
    case Err(_) => None
  }
}
