// What the size functions of the meter measure: UTF-8 octets and magnitude bytes.
module Sizes {
  import opened JsValue
  import opened Budget
  import opened PythonValues
  import T = TextCodec
  import F = FromJsBudget
  import P = ToJsBudget

  // The scalar values of a string, one for each character.
  function Scalars(s: string): seq<int> {
    seq(|s|, i requires 0 <= i < |s| => s[i] as int)
  }

  lemma CharsAreScalars(s: string, i: nat)
    requires i < |s|
    ensures T.Scalar(Scalars(s)[i])
  {
  }

  lemma WidthIsOctets(c: char)
    ensures Utf8Width(c) == |T.EncodePoint(c as int)|
  {
  }

  // The cost of a string is the length of its UTF-8 form.
  lemma {:induction false} Utf8LenIsOctets(s: string, octets: seq<T.octet>)
    requires T.IsUtf8Text(octets, Scalars(s))
    ensures Utf8Len(s) == |octets|
    decreases |s|
  {
    if s != [] {
      assert Scalars(s)[0] == s[0] as int && Scalars(s)[1..] == Scalars(s[1..]);
      CharsAreScalars(s, 0);
      WidthIsOctets(s[0]);
      var n := T.NextCharacter(octets, Scalars(s));
      Utf8LenIsOctets(s[1..], octets[n..]);
      assert |octets| == |T.EncodePoint(s[0] as int)| + |octets[n..]|;
    }
  }

  // ... and every string has one.
  lemma {:induction false} EveryStringHasOctets(s: string) returns (octets: seq<T.octet>)
    ensures T.IsUtf8Text(octets, Scalars(s)) && |octets| == Utf8Len(s)
    decreases |s|
  {
    octets := [];
    if s != [] {
      var rest := EveryStringHasOctets(s[1..]);
      var first := T.EncodePoint(s[0] as int);
      CharsAreScalars(s, 0);
      T.PointIsUtf8(s[0] as int);
      octets := first + rest;
      assert Scalars(s)[1..] == Scalars(s[1..]);
      assert octets[..|first|] == first && octets[|first|..] == rest;
      Utf8LenIsOctets(s, octets);
    }
  }

  // ---- integers ----

  // The cost of an integer is the least number of bytes, at least one, that hold its magnitude.
  lemma {:induction false} MagnitudeLenIsLeast(n: nat, k: nat)
    requires k > 0
    ensures MagnitudeLen(n) <= k <==> n < Pow256(k)
    decreases k
  {
    if k == 1 {
      assert Pow256(1) == 256 * Pow256(0);
    } else if n >= 256 {
      MagnitudeLenIsLeast(n / 256, k - 1);
      assert n / 256 < Pow256(k - 1) <==> n < 256 * Pow256(k - 1);
    } else {
      Positive(k - 1);
    }
  }

  lemma {:induction false} Positive(k: nat)
    ensures Pow256(k) >= 1
  {
    if k > 0 {
      Positive(k - 1);
    }
  }

  // ---- so much is charged ----

  // One level down and this many bytes more is within the limits.
  predicate Affords(m: Meter, bytes: nat) {
    Sat(m.depth + 1) <= m.maxDepth && Sat(m.bytes + bytes) <= m.maxBytes
  }

  // In both directions a string converts exactly when its UTF-8 form and sixteen bytes more fit.
  lemma JsStringsCostTheirOctets(s: string, octets: seq<T.octet>, handle: bool, m: Meter)
    requires MeterOk(m) && T.IsUtf8Text(octets, Scalars(s))
    ensures FromJs(Str(s), handle, m).0.Ok? <==> Affords(m, |octets| + 16)
  {
    Utf8LenIsOctets(s, octets);
    F.ConvertsIffItFits(Str(s), handle, m);
    assert F.NeedOf(Str(s), handle) == Need(true, 1, |octets| + 16);
  }

  lemma PyStringsCostTheirOctets(s: string, octets: seq<T.octet>, m: Meter)
    requires MeterOk(m) && T.IsUtf8Text(octets, Scalars(s))
    ensures ToJs(PyStr(s), m).0.Ok? <==> Affords(m, |octets| + 16)
  {
    Utf8LenIsOctets(s, octets);
    P.ConvertsIffItFits(PyStr(s), m);
    assert P.NeedOf(PyStr(s)) == Need(true, 1, |octets| + 16);
  }

  // A property or entry costs its key's UTF-8 form and eight bytes on top of its value.
  lemma KeysCostTheirOctets(key: string, octets: seq<T.octet>, v: JSValue, p: PyValue, handle: bool)
    requires T.IsUtf8Text(octets, Scalars(key))
    ensures F.NeedOfEntry(Prop(key, v), handle).cost == |octets| + 8 + F.NeedOf(v, handle).cost
    ensures P.NeedOfEntry(PyEntry(StrKey(key), p)).cost == |octets| + 8 + P.NeedOf(p).cost
  {
    Utf8LenIsOctets(key, octets);
  }

  // A BigInt converts exactly when its magnitude's bytes fit, as does a Python integer that no
  // i64 holds.
  lemma IntegersCostTheirBytes(n: int, k: nat, handle: bool, m: Meter)
    requires MeterOk(m) && k > 0 && Abs(n) < Pow256(k) && (k == 1 || Pow256(k - 1) <= Abs(n))
    ensures FromJs(BigInt(n), handle, m).0.Ok? <==> Affords(m, k)
    ensures !InI64(n) ==> (ToJs(PyInt(n), m).0.Ok? <==> Affords(m, k))
  {
    MagnitudeLenIsLeast(Abs(n), k);
    if k > 1 {
      MagnitudeLenIsLeast(Abs(n), k - 1);
    }
    F.ConvertsIffItFits(BigInt(n), handle, m);
    P.ConvertsIffItFits(PyInt(n), m);
  }
}
