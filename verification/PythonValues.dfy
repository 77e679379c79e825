// Python values as trees, and what the two conversions make of them.  The conversions thread
// one meter through a whole value or argument list and stop at the first error.
module PythonValues {
  import opened Wrappers
  import opened JsValue
  import opened Budget
  import opened WireCodec
  import Decimal

  datatype PyKey = StrKey(s: string) | OtherKey

  datatype PyEntry = PyEntry(key: PyKey, value: PyValue)

  datatype PyValue =
    | PyNone
    | PyUndefined
    | PyBool(b: bool)
    | PyInt(n: int)
    | PyFloat(f: F64)
    | PyStr(s: string)
    | PyBytes(bytes: seq<byte>)          // bytes, bytearray and memoryview alike
    | PyList(items: seq<PyValue>)
    | PyDict(entries: seq<PyEntry>)
    | PySet(items: seq<PyValue>)         // set and frozenset, in iteration order
    | PyDatetime(ms: i64)
    | PyFunction(id: u32)                // a JsFunction proxy
    | PyJsStream(id: u32)
    | PyStreamSource(id: u32)
    | PyOther                            // any other type

  datatype ConvError = TooDeep | TooBig | NoHandle | NoPlaceholder | Unhashable | BadPayload | DateRange | BadKey | Unsupported | Circular

  // ---- JavaScript to Python ----

  // datetime covers the years 1 to 9999.
  predicate DateInRange(ms: int) {
    -62135596800000 <= ms <= 253402300799999
  }

  predicate Hashable(p: PyValue) {
    !p.PyList? && !p.PyDict? && !p.PySet?
  }

  function NumberOf(p: PyValue): Option<real> {
    match p
    case PyBool(b) => Some(if b then 1.0 else 0.0)
    case PyInt(n) => Some(n as real)
    case PyFloat(Finite(r)) => Some(r)
    case _ => None
  }

  // Python equality of two freshly made hashable values.
  predicate PyEqual(a: PyValue, b: PyValue) {
    if NumberOf(a).Some? || NumberOf(b).Some? then NumberOf(a) == NumberOf(b)
    else a == b && a != PyFloat(NaN) && !a.PyFunction? && !a.PyJsStream?
  }

  function PySetAdd(items: seq<PyValue>, p: PyValue): seq<PyValue> {
    if exists i :: 0 <= i < |items| && PyEqual(items[i], p) then items else items + [p]
  }

  function EntryOf(entries: seq<PyEntry>, key: string): (r: Option<nat>)
    ensures r.Some? ==> r.value < |entries| && entries[r.value].key == StrKey(key)
    ensures r.None? ==> forall i :: 0 <= i < |entries| ==> entries[i].key != StrKey(key)
  {
    if entries == [] then None
    else if entries[|entries| - 1].key == StrKey(key) then Some(|entries| - 1)
    else EntryOf(entries[..|entries| - 1], key)
  }

  function PyDictSet(entries: seq<PyEntry>, key: string, value: PyValue): seq<PyEntry> {
    var entry := PyEntry(StrKey(key), value);
    match EntryOf(entries, key)
    case Some(i) => entries[i := entry]
    case None => entries + [entry]
  }

  function FromJs(v: JSValue, handle: bool, m: Meter): (Result<PyValue, ConvError>, Meter)
    decreases v, 2
  {
    var (entered, ok) := Entered(m);
    if !ok then (Err(TooDeep), entered)
    else
      var (r, m1) := FromJsInner(v, handle, entered);
      (r, Exited(m1))
  }

  function Leaf(p: PyValue, m: Meter, cost: nat): (Result<PyValue, ConvError>, Meter) {
    var (m1, ok) := Charged(m, cost);
    (if ok then Ok(p) else Err(TooBig), m1)
  }

  function FromJsInner(v: JSValue, handle: bool, m: Meter): (Result<PyValue, ConvError>, Meter)
    decreases v, 1
  {
    match v
    case Undefined => (Ok(PyUndefined), m)
    case Null => Leaf(PyNone, m, 4)
    case Bool(b) => Leaf(PyBool(b), m, 1)
    case Int(i) => Leaf(PyInt(i), m, 8)
    case BigInt(n) => Leaf(PyInt(n), m, MagnitudeLen(Abs(n)))
    case Float(f) => Leaf(PyFloat(f), m, 8)
    case Str(s) =>
      var (m1, ok) := Pay(m, Utf8Len(s), 16);
      (if ok then Ok(PyStr(s)) else Err(TooBig), m1)
    case Bytes(bytes) => Leaf(PyBytes(bytes), m, |bytes|)
    case Array(items) =>
      var (m1, ok) := Pay(m, 16, Sat(8 * |items|));
      if !ok then (Err(TooBig), m1)
      else
        var (r, m2) := FromJsAll(items, handle, m1);
        (if r.Ok? then Ok(PyList(r.value)) else Err(r.error), m2)
    case Set(items) =>
      var (m1, ok) := Pay(m, 24, Sat(8 * |items|));
      if !ok then (Err(TooBig), m1)
      else
        var (r, m2) := FromJsSet(items, handle, m1);
        (if r.Ok? then Ok(PySet(r.value)) else Err(r.error), m2)
    case Object(props) =>
      var (m1, ok) := Pay(m, 24, Sat(16 * |props|));
      if !ok then (Err(TooBig), m1)
      else FromJsObject(props, handle, m1)
    case Date(ms) =>
      var (m1, ok) := Charged(m, 16);
      (if !ok then Err(TooBig) else if DateInRange(ms) then Ok(PyDatetime(ms)) else Err(DateRange), m1)
    case Function(id) =>
      var (m1, ok) := Charged(m, 8);
      (if !ok then Err(TooBig) else if handle then Ok(PyFunction(id)) else Err(NoHandle), m1)
    case JsStream(id) =>
      var (m1, ok) := Charged(m, 8);
      (if !ok then Err(TooBig) else if handle then Ok(PyJsStream(id)) else Err(NoHandle), m1)
    case PyStream(_) => (Err(NoPlaceholder), m)
  }

  // What the conversion to Python takes an object for.
  datatype ObjectKind = AsUndefined | AsDate(ms: Option<int>) | AsSet(at: nat) | AsBigInt(n: Option<int>) | AsDict

  function TagOfProps(props: seq<Prop>): KnownTag {
    match Get(props, TYPE_TAG)
    case Some(Str(tag)) => TagOf(tag)
    case _ => OtherTag
  }

  // A tag and payload that are recognised make the tagged value; anything else is a dict.
  function Classify(props: seq<Prop>): (kind: ObjectKind)
    ensures kind.AsSet? ==> kind.at < |props| && props[kind.at].value.Array?
  {
    match TagOfProps(props)
    case UndefinedTag => AsUndefined
    case DateTag =>
      (match Get(props, DATE_EPOCH_KEY)
       case None => AsDict
       case Some(Int(i)) => AsDate(Some(i))
       case Some(Float(Finite(r))) => AsDate(Some(TruncateToI64(r)))
       case Some(_) => AsDate(None))
    case SetTag =>
      (match IndexOf(props, SET_VALUES_KEY)
       case Some(i) => if props[i].value.Array? then AsSet(i) else AsDict
       case None => AsDict)
    case BigIntTag =>
      (match Get(props, BIGINT_VALUE_KEY)
       case Some(Str(text)) => AsBigInt(Decimal.Parse(text))
       case _ => AsDict)
    case _ => AsDict
  }

  function FromJsObject(props: seq<Prop>, handle: bool, m: Meter): (Result<PyValue, ConvError>, Meter)
    decreases props, 3
  {
    match Classify(props)
    case AsUndefined => (Ok(PyUndefined), m)
    case AsDate(None) => (Err(BadPayload), m)
    case AsDate(Some(ms)) => (if DateInRange(ms) then Ok(PyDatetime(ms)) else Err(DateRange), m)
    case AsBigInt(n) => (if n.Some? then Ok(PyInt(n.value)) else Err(BadPayload), m)
    case AsSet(at) =>
      var (r, m1) := FromJsSet(props[at].value.items, handle, m);
      (if r.Ok? then Ok(PySet(r.value)) else Err(r.error), m1)
    case AsDict =>
      var (r, m1) := FromJsProps(props, handle, m);
      (if r.Ok? then Ok(PyDict(r.value)) else Err(r.error), m1)
  }

  function FromJsAll(items: seq<JSValue>, handle: bool, m: Meter): (Result<seq<PyValue>, ConvError>, Meter)
    decreases items, 2
  {
    if items == [] then (Ok([]), m)
    else
      var (front, m1) := FromJsAll(items[..|items| - 1], handle, m);
      if front.Err? then (front, m1)
      else
        var (last, m2) := FromJs(items[|items| - 1], handle, m1);
        (if last.Ok? then Ok(front.value + [last.value]) else Err(last.error), m2)
  }

  function FromJsSet(items: seq<JSValue>, handle: bool, m: Meter): (Result<seq<PyValue>, ConvError>, Meter)
    decreases items, 2
  {
    if items == [] then (Ok([]), m)
    else
      var (front, m1) := FromJsSet(items[..|items| - 1], handle, m);
      if front.Err? then (front, m1)
      else
        var (last, m2) := FromJs(items[|items| - 1], handle, m1);
        (if last.Err? then Err(last.error)
         else if Hashable(last.value) then Ok(PySetAdd(front.value, last.value))
         else Err(Unhashable), m2)
  }

  function FromJsProps(props: seq<Prop>, handle: bool, m: Meter): (Result<seq<PyEntry>, ConvError>, Meter)
    decreases props, 2
  {
    if props == [] then (Ok([]), m)
    else
      var (front, m1) := FromJsProps(props[..|props| - 1], handle, m);
      if front.Err? then (front, m1)
      else
        var last := props[|props| - 1];
        var (value, m2) := EntryFromJs(last, handle, m1);
        (if value.Ok? then Ok(PyDictSet(front.value, last.key, value.value)) else Err(value.error), m2)
  }

  function EntryFromJs(prop: Prop, handle: bool, m: Meter): (Result<PyValue, ConvError>, Meter)
    decreases prop, 2
  {
    var (m1, ok) := Pay(m, Utf8Len(prop.key), 8);
    if ok then FromJs(prop.value, handle, m1) else (Err(TooBig), m1)
  }

  // ---- Python to JavaScript, on trees ----

  function ToJs(p: PyValue, m: Meter): (Result<JSValue, ConvError>, Meter)
    decreases p, 2
  {
    var (entered, ok) := Entered(m);
    if !ok then (Err(TooDeep), entered)
    else
      var (r, m1) := ToJsInner(p, entered);
      // An error leaves through `?` and skips the exit; an unsupported type reaches it.
      (r, if r.Ok? || Unsupportable(p) then Exited(m1) else m1)
  }

  predicate Unsupportable(p: PyValue) {
    p.PyOther? || p.PyJsStream?
  }

  function JsLeaf(v: JSValue, m: Meter, cost: nat): (Result<JSValue, ConvError>, Meter) {
    var (m1, ok) := Charged(m, cost);
    (if ok then Ok(v) else Err(TooBig), m1)
  }

  function IntToJs(n: int): JSValue {
    if InI64(n) then Int(n) else BigInt(n)
  }

  function IntCost(n: int): nat {
    if InI64(n) then 8 else MagnitudeLen(Abs(n))
  }

  function ToJsInner(p: PyValue, m: Meter): (Result<JSValue, ConvError>, Meter)
    decreases p, 1
  {
    match p
    case PyNone => JsLeaf(Null, m, 4)
    case PyUndefined => JsLeaf(Undefined, m, 0)
    case PyStreamSource(id) => JsLeaf(PyStream(id), m, 4)
    case PyBytes(bytes) => JsLeaf(Bytes(bytes), m, |bytes|)
    case PyList(items) =>
      var (m1, ok) := Pay(m, 16, Sat(8 * |items|));
      if !ok then (Err(TooBig), m1)
      else
        var (r, m2) := ToJsAll(items, m1);
        (if r.Ok? then Ok(Array(r.value)) else Err(r.error), m2)
    case PyDict(entries) =>
      var (m1, ok) := Pay(m, 24, Sat(16 * |entries|));
      if !ok then (Err(TooBig), m1)
      else
        var (r, m2) := ToJsEntries(entries, m1);
        (if r.Ok? then Ok(Object(r.value)) else Err(r.error), m2)
    case PySet(items) =>
      var (m1, ok) := Pay(m, 24, Sat(8 * |items|));
      if !ok then (Err(TooBig), m1)
      else
        var (r, m2) := ToJsAll(items, m1);
        (if r.Ok? then Ok(Set(r.value)) else Err(r.error), m2)
    case PyDatetime(ms) => JsLeaf(Date(ms), m, 16)
    case PyBool(b) => JsLeaf(Bool(b), m, 1)
    case PyInt(n) => JsLeaf(IntToJs(n), m, IntCost(n))
    case PyFloat(f) => JsLeaf(Float(f), m, 8)
    case PyStr(s) =>
      if Sat(Utf8Len(s)) > m.maxBytes then (Err(TooBig), m)
      else
        var (m1, ok) := Pay(m, Utf8Len(s), 16);
        (if ok then Ok(Str(s)) else Err(TooBig), m1)
    case PyFunction(id) => JsLeaf(Function(id), m, 8)
    case PyJsStream(_) => (Err(Unsupported), m)
    case PyOther => (Err(Unsupported), m)
  }

  function ToJsAll(items: seq<PyValue>, m: Meter): (Result<seq<JSValue>, ConvError>, Meter)
    decreases items, 2
  {
    if items == [] then (Ok([]), m)
    else
      var (front, m1) := ToJsAll(items[..|items| - 1], m);
      if front.Err? then (front, m1)
      else
        var (last, m2) := ToJs(items[|items| - 1], m1);
        (if last.Ok? then Ok(front.value + [last.value]) else Err(last.error), m2)
  }

  function ToJsEntries(entries: seq<PyEntry>, m: Meter): (Result<seq<Prop>, ConvError>, Meter)
    decreases entries, 2
  {
    if entries == [] then (Ok([]), m)
    else
      var (front, m1) := ToJsEntries(entries[..|entries| - 1], m);
      if front.Err? then (front, m1)
      else
        var last := entries[|entries| - 1];
        var (value, m2) := EntryToJs(last, m1);
        (if value.Ok? then Ok(Insert(front.value, last.key.s, value.value)) else Err(value.error), m2)
  }

  function EntryToJs(entry: PyEntry, m: Meter): (r: (Result<JSValue, ConvError>, Meter))
    ensures r.0.Ok? ==> entry.key.StrKey?
    decreases entry, 2
  {
    if entry.key.OtherKey? then (Err(BadKey), m)
    else
      var (m1, ok) := Pay(m, Utf8Len(entry.key.s), 8);
      if ok then ToJs(entry.value, m1) else (Err(TooBig), m1)
  }
}
