// The TextEncoder and TextDecoder polyfills: UTF-16 code units to bytes and back.  Shifts and
// masks are written as division and remainder; all bits that are or-ed together are disjoint.
module TextCodec {
  type unit16 = x: int | 0 <= x < 0x1_0000 witness 0
  type octet = x: int | 0 <= x < 256 witness 0

  // Lead surrogates paired with any unit reach past the last code point.
  type point = x: int | 0 <= x < 0x11_2000 witness 0

  predicate High(u: int) {
    0xD800 <= u <= 0xDBFF
  }

  predicate Low(u: int) {
    0xDC00 <= u <= 0xDFFF
  }

  // ---- encoding ----

  function Combine(high: unit16, next: unit16): (cp: point)
    requires High(high)
    ensures cp >= 0x2400
  {
    0x1_0000 + (high - 0xD800) * 0x400 + (next - 0xDC00)
  }

  // A continuation byte: 10xxxxxx.
  function Next(n: nat): octet {
    0x80 + n % 0x40
  }

  function EncodePoint(cp: point): (bytes: seq<octet>)
    ensures bytes != []
  {
    if cp < 0x80 then [cp]
    else if cp < 0x800 then [0xC0 + cp / 0x40, Next(cp)]
    else if cp < 0x1_0000 then [0xE0 + cp / 0x1000, Next(cp / 0x40), Next(cp)]
    else [0xF0 + cp / 0x4_0000, Next(cp / 0x1000), Next(cp / 0x40), Next(cp)]
  }

  function Encode(s: seq<unit16>): seq<octet> {
    if s == [] then []
    else if High(s[0]) && |s| > 1 then EncodePoint(Combine(s[0], s[1])) + Encode(s[2..])
    else EncodePoint(s[0]) + Encode(s[1..])
  }

  method EncodeText(s: seq<unit16>) returns (out: seq<octet>)
    ensures out == Encode(s)
  {
    out := [];
    var i := 0;
    while i < |s|
      invariant 0 <= i <= |s| && out + Encode(s[i..]) == Encode(s)
    {
      EncodeStep(s, i, out);
      var cp: point := s[i];
      if 0xD800 <= cp <= 0xDBFF && i + 1 < |s| {
        i := i + 1;
        cp := 0x1_0000 + (cp - 0xD800) * 0x400 + (s[i] as int - 0xDC00);
      }
      out := PushPoint(out, cp);
      i := i + 1;
    }
  }

  method PushPoint(out: seq<octet>, cp: point) returns (pushed: seq<octet>)
    ensures pushed == out + EncodePoint(cp)
  {
    if cp < 0x80 {
      pushed := out + [cp];
    } else if cp < 0x800 {
      pushed := out + [0xC0 + cp / 0x40, Next(cp)];
    } else if cp < 0x1_0000 {
      pushed := out + [0xE0 + cp / 0x1000, Next(cp / 0x40), Next(cp)];
    } else {
      pushed := out + [0xF0 + cp / 0x4_0000, Next(cp / 0x1000), Next(cp / 0x40), Next(cp)];
    }
  }

  lemma EncodeStep(s: seq<unit16>, i: nat, out: seq<octet>)
    requires i < |s|
    ensures High(s[i]) && i + 1 < |s| ==>
      out + Encode(s[i..]) == out + EncodePoint(Combine(s[i], s[i + 1])) + Encode(s[i + 2..])
    ensures !(High(s[i]) && i + 1 < |s|) ==> out + Encode(s[i..]) == out + EncodePoint(s[i]) + Encode(s[i + 1..])
  {
    var rest := s[i..];
    if High(s[i]) && i + 1 < |s| {
      assert rest[2..] == s[i + 2..];
      assert out + (EncodePoint(Combine(s[i], s[i + 1])) + Encode(rest[2..]))
          == out + EncodePoint(Combine(s[i], s[i + 1])) + Encode(rest[2..]);
    } else {
      assert rest[1..] == s[i + 1..];
      assert out + (EncodePoint(s[i]) + Encode(rest[1..])) == out + EncodePoint(s[i]) + Encode(rest[1..]);
    }
  }

  // ---- decoding ----

  // A byte past the end reads as undefined, which masks to zero.
  function Bits(bytes: seq<octet>, i: nat): int {
    if i < |bytes| then bytes[i] % 0x40 else 0
  }

  function CharCode(n: int): unit16 {
    n % 0x1_0000
  }

  function PairFor(cp: int): seq<unit16> {
    [CharCode(0xD800 + (cp - 0x1_0000) / 0x400), CharCode(0xDC00 + (cp - 0x1_0000) % 0x400)]
  }

  // The units made of the first byte and what it draws in, and how far the cursor moves.
  function DecodeOne(bytes: seq<octet>): (r: (seq<unit16>, nat))
    requires bytes != []
    ensures r.1 > 0
  {
    var b := bytes[0];
    if b < 0x80 then ([b], 1)
    else if b < 0xE0 then ([CharCode(b % 0x20 * 0x40 + Bits(bytes, 1))], 2)
    else if b < 0xF0 then ([CharCode(b % 0x10 * 0x1000 + Bits(bytes, 1) * 0x40 + Bits(bytes, 2))], 3)
    else (PairFor(b % 8 * 0x4_0000 + Bits(bytes, 1) * 0x1000 + Bits(bytes, 2) * 0x40 + Bits(bytes, 3)), 4)
  }

  function Drop(bytes: seq<octet>, n: nat): seq<octet> {
    if n <= |bytes| then bytes[n..] else []
  }

  function Decode(bytes: seq<octet>): seq<unit16>
    decreases |bytes|
  {
    if bytes == [] then []
    else DecodeOne(bytes).0 + Decode(Drop(bytes, DecodeOne(bytes).1))
  }

  method DecodeText(bytes: seq<octet>) returns (out: seq<unit16>)
    ensures out == Decode(bytes)
  {
    out := [];
    var i: nat := 0;
    while i < |bytes|
      invariant out + Decode(Drop(bytes, i)) == Decode(bytes)
      decreases |bytes| - i
    {
      var units, next := TakeOne(bytes, i);
      assert out + (units + Decode(Drop(bytes, next))) == out + units + Decode(Drop(bytes, next));
      out, i := out + units, next;
    }
  }

  method TakeOne(bytes: seq<octet>, start: nat) returns (units: seq<unit16>, i: nat)
    requires start < |bytes|
    ensures (units, i - start) == DecodeOne(bytes[start..])
    ensures i > start && Decode(Drop(bytes, start)) == units + Decode(Drop(bytes, i))
  {
    var b := bytes[start];
    var b1, b2, b3 := Bits(bytes, start + 1), Bits(bytes, start + 2), Bits(bytes, start + 3);
    if b < 0x80 {
      units, i := [b], start + 1;
    } else if b < 0xE0 {
      units, i := [CharCode(b % 0x20 * 0x40 + b1)], start + 2;
    } else if b < 0xF0 {
      units, i := [CharCode(b % 0x10 * 0x1000 + b1 * 0x40 + b2)], start + 3;
    } else {
      var cp := b % 8 * 0x4_0000 + b1 * 0x1000 + b2 * 0x40 + b3;
      cp := cp - 0x1_0000;
      units, i := [CharCode(0xD800 + cp / 0x400), CharCode(0xDC00 + cp % 0x400)], start + 4;
    }
    DecodeStep(bytes, start, units, i);
  }

  lemma DecodeStep(bytes: seq<octet>, start: nat, units: seq<unit16>, i: nat)
    requires start < |bytes| && i > start && (units, i - start) == DecodeOne(bytes[start..])
    ensures Decode(Drop(bytes, start)) == units + Decode(Drop(bytes, i))
  {
    assert Drop(bytes[start..], i - start) == Drop(bytes, i);
  }

  // ---- round trip ----

  // Every lead surrogate that something follows is followed by a trail surrogate.
  predicate Paired(s: seq<unit16>) {
    forall i :: 0 <= i < |s| - 1 && High(s[i]) ==> Low(s[i + 1])
  }

  function Units(cp: point): seq<unit16> {
    if cp < 0x1_0000 then [cp] else PairFor(cp)
  }

  lemma TwoRead(n: nat)
    requires n < 0x800
    ensures (0xC0 + n / 0x40) % 0x20 * 0x40 + Next(n) % 0x40 == n
  {
  }

  lemma ThreeRead(n: nat)
    requires n < 0x1_0000
    ensures (0xE0 + n / 0x1000) % 0x10 * 0x1000 + Next(n / 0x40) % 0x40 * 0x40 + Next(n) % 0x40 == n
  {
    assert (0xE0 + n / 0x1000) % 0x10 == n / 0x1000;
    Sextets(n);
  }

  lemma FourRead(n: nat)
    requires n < 0x20_0000
    ensures (0xF0 + n / 0x4_0000) % 8 * 0x4_0000 + Next(n / 0x1000) % 0x40 * 0x1000
      + Next(n / 0x40) % 0x40 * 0x40 + Next(n) % 0x40 == n
  {
    assert (0xF0 + n / 0x4_0000) % 8 == n / 0x4_0000;
    Sextets(n);
  }

  // The six-bit groups of a number.
  lemma Sextets(n: nat)
    ensures n == n / 0x40 * 0x40 + n % 0x40
    ensures n / 0x40 == n / 0x1000 * 0x40 + n / 0x40 % 0x40
    ensures n / 0x1000 == n / 0x4_0000 * 0x40 + n / 0x1000 % 0x40
  {
  }

  lemma ThreeOctetsRead(cp: point, rest: seq<octet>)
    requires 0x800 <= cp < 0x1_0000
    ensures DecodeOne(EncodePoint(cp) + rest) == (Units(cp), 3)
  {
    var bytes, point := EncodePoint(cp) + rest, EncodePoint(cp);
    assert bytes[0] == point[0] && bytes[1] == point[1] && bytes[2] == point[2];
    ThreeRead(cp);
  }

  lemma FourOctetsRead(cp: point, rest: seq<octet>)
    requires 0x1_0000 <= cp
    ensures DecodeOne(EncodePoint(cp) + rest) == (Units(cp), 4)
  {
    var bytes, point := EncodePoint(cp) + rest, EncodePoint(cp);
    assert bytes[0] == point[0] && bytes[1] == point[1] && bytes[2] == point[2] && bytes[3] == point[3];
    FourRead(cp);
  }

  lemma PointReads(cp: point, rest: seq<octet>)
    ensures DecodeOne(EncodePoint(cp) + rest) == (Units(cp), |EncodePoint(cp)|)
  {
    var bytes, point := EncodePoint(cp) + rest, EncodePoint(cp);
    if cp < 0x80 {
      assert bytes[0] == point[0];
    } else if cp < 0x800 {
      assert bytes[0] == point[0] && bytes[1] == point[1];
      TwoRead(cp);
    } else if cp < 0x1_0000 {
      ThreeOctetsRead(cp, rest);
    } else {
      FourOctetsRead(cp, rest);
    }
  }

  lemma PointComesBack(cp: point, rest: seq<octet>)
    ensures Decode(EncodePoint(cp) + rest) == Units(cp) + Decode(rest)
  {
    var bytes := EncodePoint(cp) + rest;
    PointReads(cp, rest);
    assert Drop(bytes, |EncodePoint(cp)|) == rest;
  }

  // The low ten bits of a supplementary character.
  lemma TenBits(n: nat, h: nat, low: nat)
    requires n == h * 0x400 + low && low < 0x400
    ensures n / 0x400 == h && n % 0x400 == low
  {
  }

  lemma PairComesBackIffLow(high: unit16, next: unit16)
    requires High(high)
    ensures Units(Combine(high, next)) == [high, next] <==> Low(next)
  {
    var n := Combine(high, next) - 0x1_0000;
    if Low(next) {
      TenBits(n, high as int - 0xD800, next as int - 0xDC00);
    }
    if n >= 0 {
      assert PairFor(n + 0x1_0000)[1] == 0xDC00 + n % 0x400;
    }
  }

  // What the encoder takes from the front, and the decoder makes of it.
  lemma FrontEncodes(s: seq<unit16>) returns (n: nat, cp: point)
    requires s != []
    ensures n <= |s| && n == (if High(s[0]) && |s| > 1 then 2 else 1)
    ensures Encode(s) == EncodePoint(cp) + Encode(s[n..])
    ensures |Units(cp)| <= n
    ensures Units(cp) == s[..n] <==> (n == 2 ==> Low(s[1]))
  {
    if High(s[0]) && |s| > 1 {
      n, cp := 2, Combine(s[0], s[1]);
      PairComesBackIffLow(s[0], s[1]);
      assert s[..2] == [s[0], s[1]];
    } else {
      n, cp := 1, s[0];
    }
  }

  lemma FrontReturns(s: seq<unit16>) returns (n: nat, units: seq<unit16>)
    requires s != []
    ensures n <= |s| && n == (if High(s[0]) && |s| > 1 then 2 else 1)
    ensures Decode(Encode(s)) == units + Decode(Encode(s[n..]))
    ensures |units| <= n
    ensures units == s[..n] <==> (n == 2 ==> Low(s[1]))
  {
    var cp;
    n, cp := FrontEncodes(s);
    units := Units(cp);
    PointComesBack(cp, Encode(s[n..]));
  }

  lemma {:induction false} NeverLonger(s: seq<unit16>)
    ensures |Decode(Encode(s))| <= |s|
    decreases |s|
  {
    if s != [] {
      var n, units := FrontReturns(s);
      NeverLonger(s[n..]);
    }
  }

  lemma SplitEqual(a: seq<unit16>, x: seq<unit16>, b: seq<unit16>, y: seq<unit16>)
    requires |a| <= |b| && |x| <= |y|
    ensures a + x == b + y <==> a == b && x == y
  {
    if a + x == b + y {
      assert |a + x| == |b + y|;
      assert a == (a + x)[..|a|] && x == (a + x)[|a|..];
      assert b == (b + y)[..|b|] && y == (b + y)[|b|..];
    }
  }

  // decode(encode(s)) is s exactly when every lead surrogate that is not last has its trail.
  lemma {:induction false} RoundTripIffPaired(s: seq<unit16>)
    ensures Decode(Encode(s)) == s <==> Paired(s)
    decreases |s|
  {
    if s != [] {
      var n, units := FrontReturns(s);
      var front, rest := s[..n], s[n..];
      RoundTripIffPaired(rest);
      NeverLonger(rest);
      assert s == front + rest;
      SplitEqual(units, Decode(Encode(rest)), front, rest);
      PairedTail(s, n);
    }
  }

  lemma PairedTail(s: seq<unit16>, n: nat)
    requires n <= |s| && 1 <= n <= 2
    requires n == 2 ==> High(s[0])
    requires n == 1 && |s| > 1 ==> !High(s[0])
    ensures Paired(s) <==> Paired(s[n..]) && (n == 2 ==> Low(s[1]))
  {
    var tail := s[n..];
    assert forall i :: 0 <= i < |tail| ==> tail[i] == s[i + n];
    if Paired(tail) && (n == 2 ==> Low(s[1])) {
      forall i | 0 <= i < |s| - 1 && High(s[i]) ensures Low(s[i + 1]) {
        if i >= n {
          assert High(tail[i - n]);
        }
      }
    }
    if Paired(s) {
      forall i | 0 <= i < |tail| - 1 && High(tail[i]) ensures Low(tail[i + 1]) {
        assert High(s[i + n]);
      }
    }
  }

  // ---- the standards ----

  predicate Scalar(u: int) {
    0 <= u <= 0x10_FFFF && !High(u) && !Low(u)
  }

  // Section 2.1 of RFC 2781: the UTF-16 form of a character.
  ghost predicate IsUtf16(s: seq<unit16>, u: int) {
    if u < 0x1_0000 then s == [u]
    else |s| == 2 && High(s[0]) && Low(s[1]) && u - 0x1_0000 == (s[0] as int - 0xD800) * 0x400 + (s[1] as int - 0xDC00)
  }

  predicate Tail(b: octet) {
    0x80 <= b <= 0xBF
  }

  // Section 3 of RFC 3629: the lead octet's high bits give the length, the remaining bits of
  // all octets in order are the bits of the character number, and the range fixes the length.
  ghost predicate IsUtf8(b: seq<octet>, u: int) {
    match |b|
    case 1 => u <= 0x7F && u == b[0]
    case 2 =>
      && 0x80 <= u <= 0x7FF && 0xC0 <= b[0] < 0xE0 && Tail(b[1])
      && u == (b[0] as int - 0xC0) * 0x40 + (b[1] as int - 0x80)
    case 3 =>
      && 0x800 <= u <= 0xFFFF && 0xE0 <= b[0] < 0xF0 && Tail(b[1]) && Tail(b[2])
      && u == (b[0] as int - 0xE0) * 0x1000 + (b[1] as int - 0x80) * 0x40 + (b[2] as int - 0x80)
    case 4 =>
      && 0x1_0000 <= u <= 0x10_FFFF && 0xF0 <= b[0] < 0xF8 && Tail(b[1]) && Tail(b[2]) && Tail(b[3])
      && u == (b[0] as int - 0xF0) * 0x4_0000 + (b[1] as int - 0x80) * 0x1000 + (b[2] as int - 0x80) * 0x40 + (b[3] as int - 0x80)
    case _ => false
  }

  ghost predicate IsUtf16Text(s: seq<unit16>, text: seq<int>) {
    if text == [] then s == []
    else exists n :: 0 <= n <= |s| && IsUtf16(s[..n], text[0]) && IsUtf16Text(s[n..], text[1..])
  }

  ghost predicate IsUtf8Text(b: seq<octet>, text: seq<int>) {
    if text == [] then b == []
    else exists n :: 0 <= n <= |b| && IsUtf8(b[..n], text[0]) && IsUtf8Text(b[n..], text[1..])
  }

  // Taking off the last six bits.
  lemma LastSextet(n: nat, front: nat, last: octet)
    requires Tail(last) && n == front * 0x40 + (last as int - 0x80)
    ensures n / 0x40 == front && Next(n) == last
  {
  }

  lemma TwoUnique(b: seq<octet>, u: int)
    requires |b| == 2 && IsUtf8(b, u)
    ensures b == EncodePoint(u)
  {
    LastSextet(u, b[0] as int - 0xC0, b[1]);
  }

  lemma ThreeUnique(b: seq<octet>, u: int)
    requires |b| == 3 && IsUtf8(b, u)
    ensures b == EncodePoint(u)
  {
    var n: nat := (b[0] as int - 0xE0) * 0x40 + (b[1] as int - 0x80);
    LastSextet(u, n, b[2]);
    LastSextet(n, b[0] as int - 0xE0, b[1]);
    assert u / 0x1000 == n / 0x40;
  }

  lemma FourUnique(b: seq<octet>, u: int)
    requires |b| == 4 && IsUtf8(b, u)
    ensures b == EncodePoint(u)
  {
    var m: nat := (b[0] as int - 0xF0) * 0x40 + (b[1] as int - 0x80);
    var n: nat := m * 0x40 + (b[2] as int - 0x80);
    LastSextet(u, n, b[3]);
    LastSextet(n, m, b[2]);
    LastSextet(m, b[0] as int - 0xF0, b[1]);
    assert u / 0x1000 == n / 0x40 && u / 0x4_0000 == m / 0x40;
  }

  // A character has one UTF-8 form only.
  lemma Utf8IsUnique(b: seq<octet>, u: int)
    requires Scalar(u) && IsUtf8(b, u)
    ensures b == EncodePoint(u)
  {
    if |b| == 2 {
      TwoUnique(b, u);
    } else if |b| == 3 {
      ThreeUnique(b, u);
    } else if |b| == 4 {
      FourUnique(b, u);
    }
  }

  // A character's two UTF-16 units, or its one, encode to its UTF-8 form.
  lemma PointIsUtf8(u: int)
    requires Scalar(u)
    ensures IsUtf8(EncodePoint(u), u)
  {
    if u >= 0x80 {
      Sextets(u);
    }
  }

  // On the UTF-16 form of a text, the encoder gives its UTF-8 form.
  lemma {:induction false} EncodesToUtf8(s: seq<unit16>, text: seq<int>)
    requires (forall i :: 0 <= i < |text| ==> Scalar(text[i])) && IsUtf16Text(s, text)
    ensures IsUtf8Text(Encode(s), text)
    decreases |text|
  {
    if text != [] {
      var u := text[0];
      var n :| 0 <= n <= |s| && IsUtf16(s[..n], u) && IsUtf16Text(s[n..], text[1..]);
      assert s[0] == s[..n][0];
      assert n == 2 ==> s[1] == s[..n][1];
      assert Encode(s) == EncodePoint(u) + Encode(s[n..]);
      PointIsUtf8(u);
      EncodesToUtf8(s[n..], text[1..]);
      var k := |EncodePoint(u)|;
      assert Encode(s)[..k] == EncodePoint(u) && Encode(s)[k..] == Encode(s[n..]);
    }
  }

  lemma NextForm(b: seq<octet>, text: seq<int>) returns (n: nat)
    requires text != [] && IsUtf8Text(b, text)
    ensures n <= |b| && IsUtf8(b[..n], text[0]) && IsUtf8Text(b[n..], text[1..])
  {
    n :| n <= |b| && IsUtf8(b[..n], text[0]) && IsUtf8Text(b[n..], text[1..]);
  }

  lemma NextCharacter(b: seq<octet>, text: seq<int>) returns (n: nat)
    requires text != [] && Scalar(text[0]) && IsUtf8Text(b, text)
    ensures n <= |b| && b == EncodePoint(text[0]) + b[n..] && IsUtf8Text(b[n..], text[1..])
  {
    n := NextForm(b, text);
    assert b == b[..n] + b[n..];
    Utf8IsUnique(b[..n], text[0]);
  }

  lemma UnitsAreUtf16(u: int)
    requires Scalar(u)
    ensures IsUtf16(Units(u), u)
  {
  }

  lemma Utf16Grows(units: seq<unit16>, rest: seq<unit16>, text: seq<int>)
    requires text != [] && IsUtf16(units, text[0]) && IsUtf16Text(rest, text[1..])
    ensures IsUtf16Text(units + rest, text)
  {
    assert (units + rest)[..|units|] == units && (units + rest)[|units|..] == rest;
  }

  // On the UTF-8 form of a text, the decoder gives its UTF-16 form.
  lemma {:induction false} DecodesUtf8(b: seq<octet>, text: seq<int>)
    requires (forall i :: 0 <= i < |text| ==> Scalar(text[i])) && IsUtf8Text(b, text)
    ensures IsUtf16Text(Decode(b), text)
    decreases |text|
  {
    if text != [] {
      var u := text[0];
      var n := NextCharacter(b, text);
      PointComesBack(u, b[n..]);
      DecodesUtf8(b[n..], text[1..]);
      UnitsAreUtf16(u);
      Utf16Grows(Units(u), Decode(b[n..]), text);
    }
  }
}
