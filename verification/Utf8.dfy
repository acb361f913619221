/** UTF-8 bytes of a JavaScript string, as they reach the Rust services. */
module Utf8 {
  import opened Common
  import opened Text

  /** One code point, in one to four bytes. */
  function EncodePoint(c: int): seq<Byte>
    requires 0 <= c < 0x110000
  {
    if c < 0x80 then [c]
    else if c < 0x800 then [0xC0 + c / 0x40, 0x80 + c % 0x40]
    else if c < 0x10000 then [0xE0 + c / 0x1000, 0x80 + c / 0x40 % 0x40, 0x80 + c % 0x40]
    else [0xF0 + c / 0x40000, 0x80 + c / 0x1000 % 0x40, 0x80 + c / 0x40 % 0x40, 0x80 + c % 0x40]
  }

  function Pair(high: CodeUnit, low: CodeUnit): int {
    0x10000 + (high - 0xD800) * 0x400 + (low - 0xDC00)
  }

  /** A surrogate without its partner is written as U+FFFD. */
  function Encode(t: Text): seq<Byte> {
    if t == [] then []
    else if |t| >= 2 && IsHigh(t[0]) && IsLow(t[1]) then EncodePoint(Pair(t[0], t[1])) + Encode(t[2..])
    else EncodePoint(if IsHigh(t[0]) || IsLow(t[0]) then 0xFFFD else t[0]) + Encode(t[1..])
  }

  /** No surrogate stands alone: the string survives a JSON parser that insists on Unicode. */
  predicate WellFormed(t: Text) {
    if t == [] then true
    else if |t| >= 2 && IsHigh(t[0]) && IsLow(t[1]) then WellFormed(t[2..])
    else !IsHigh(t[0]) && !IsLow(t[0]) && WellFormed(t[1..])
  }

  lemma {:induction false} EncodeLength(t: Text)
    ensures |Encode(t)| == Utf8Length(t)
  {
    if t != [] {
      EncodeLength(t[1..]);
      if |t| >= 2 {
        EncodeLength(t[2..]);
      }
    }
  }

  lemma {:induction false} EncodeNul(t: Text)
    ensures 0 in Encode(t) <==> NUL in t
  {
    if t != [] {
      EncodeNul(t[1..]);
      if |t| >= 2 && IsHigh(t[0]) && IsLow(t[1]) {
        EncodeNul(t[2..]);
        assert t == [t[0], t[1]] + t[2..];
      } else {
        assert t == [t[0]] + t[1..];
      }
    }
  }

  ghost predicate Ascii(s: seq<int>) {
    forall i :: 0 <= i < |s| ==> s[i] < 0x80
  }

  /** ASCII text is its own encoding. */
  lemma {:induction false} EncodeAscii(t: Text)
    requires Ascii(t)
    ensures Encode(t) == t
  {
    if t != [] {
      EncodeAscii(t[1..]);
    }
  }

  /** And only ASCII text encodes to ASCII bytes. */
  lemma {:induction false} AsciiEncoded(t: Text)
    requires Ascii(Encode(t))
    ensures Ascii(t)
  {
    if t != [] {
      var e := Encode(t);
      assert e[0] < 0x80;
      assert !IsHigh(t[0]) && !IsLow(t[0]);
      assert e == EncodePoint(t[0]) + Encode(t[1..]);
      assert t[0] < 0x80;
      assert e[1..] == Encode(t[1..]);
      AsciiEncoded(t[1..]);
    }
  }

  // ---- back to text -------------------------------------------------------------------------

  /** The first code point of a byte string and the number of bytes it takes; anything if malformed. */
  function DecodePoint(b: seq<Byte>): (int, nat)
    requires b != []
  {
    var lead: int := b[0];
    if lead < 0x80 then (lead, 1)
    else if lead < 0xE0 && |b| >= 2 then ((lead - 0xC0) * 0x40 + Low(b[1]), 2)
    else if lead < 0xF0 && |b| >= 3 then ((lead - 0xE0) * 0x1000 + Low(b[1]) * 0x40 + Low(b[2]), 3)
    else if |b| >= 4 then ((lead - 0xF0) * 0x40000 + Low(b[1]) * 0x1000 + Low(b[2]) * 0x40 + Low(b[3]), 4)
    else (0xFFFD, |b|)
  }

  /** The six bits of a continuation byte. */
  function Low(b: int): int {
    b - 0x80
  }

  /** A code point as one code unit or a surrogate pair. */
  function UnitsOf(c: int): Text {
    if 0 <= c < 0x10000 then [c]
    else if c < 0x110000 && c >= 0 then [0xD800 + (c - 0x10000) / 0x400, 0xDC00 + (c - 0x10000) % 0x400]
    else [0xFFFD]
  }

  function Decode(b: seq<Byte>): Text
    decreases |b|
  {
    if b == [] then []
    else
      var (c, n) := DecodePoint(b);
      UnitsOf(c) + Decode(b[n..])
  }

  /** The text with every lone surrogate replaced by U+FFFD. */
  function Repaired(t: Text): Text {
    if t == [] then []
    else if |t| >= 2 && IsHigh(t[0]) && IsLow(t[1]) then [t[0], t[1]] + Repaired(t[2..])
    else [if IsHigh(t[0]) || IsLow(t[0]) then 0xFFFD else t[0]] + Repaired(t[1..])
  }

  /** A code point is the sum of its six-bit groups. */
  lemma Regroup(c: int)
    requires 0 <= c < 0x110000
    ensures c == c / 0x40 * 0x40 + c % 0x40
    ensures c / 0x40 == c / 0x1000 * 0x40 + c / 0x40 % 0x40
    ensures c / 0x1000 == c / 0x40000 * 0x40 + c / 0x1000 % 0x40
  {
    assert c / 0x40 / 0x40 == c / 0x1000;
    assert c / 0x1000 / 0x40 == c / 0x40000;
  }

  lemma DecodeFirst(c: int, rest: seq<Byte>)
    requires 0 <= c < 0x110000
    ensures DecodePoint(EncodePoint(c) + rest) == (c, |EncodePoint(c)|)
    ensures (EncodePoint(c) + rest)[|EncodePoint(c)|..] == rest
  {
    var e := EncodePoint(c);
    var b := e + rest;
    assert b[..|e|] == e;
    assert DecodePoint(b) == DecodePoint(e) by {
      assert b[0] == e[0];
      assert |e| >= 2 ==> b[1] == e[1];
      assert |e| >= 3 ==> b[2] == e[2];
      assert |e| >= 4 ==> b[3] == e[3];
    }
    DecodeAlone(c);
  }

  lemma DecodeAlone(c: int)
    requires 0 <= c < 0x110000
    ensures DecodePoint(EncodePoint(c)) == (c, |EncodePoint(c)|)
  {
    Regroup(c);
  }

  lemma PairUnits(high: CodeUnit, low: CodeUnit)
    requires IsHigh(high) && IsLow(low)
    ensures 0x10000 <= Pair(high, low) < 0x110000 && UnitsOf(Pair(high, low)) == [high, low]
  {
  }

  /** Reading the bytes back gives the text with its lone surrogates replaced. */
  lemma {:induction false} DecodeEncode(t: Text)
    ensures Decode(Encode(t)) == Repaired(t)
  {
    hide EncodePoint, DecodePoint, UnitsOf, Pair;
    if t != [] {
      if |t| >= 2 && IsHigh(t[0]) && IsLow(t[1]) {
        PairUnits(t[0], t[1]);
        StepBack(Pair(t[0], t[1]), Encode(t[2..]));
        DecodeEncode(t[2..]);
      } else {
        var c := if IsHigh(t[0]) || IsLow(t[0]) then 0xFFFD else t[0];
        assert UnitsOf(c) == [c] by { OneUnit(c); }
        StepBack(c, Encode(t[1..]));
        DecodeEncode(t[1..]);
      }
    }
  }

  lemma OneUnit(c: CodeUnit)
    ensures UnitsOf(c) == [c]
  {
  }

  lemma StepBack(c: int, rest: seq<Byte>)
    requires 0 <= c < 0x110000
    ensures Decode(EncodePoint(c) + rest) == UnitsOf(c) + Decode(rest)
  {
    hide DecodePoint, UnitsOf, EncodePoint;
    DecodeFirst(c, rest);
    var point := EncodePoint(c);
    assert point != [] by { SomeBytes(c); }
    assert (point + rest)[|point|..] == rest;
  }

  lemma SomeBytes(c: int)
    requires 0 <= c < 0x110000
    ensures EncodePoint(c) != []
  {
  }

  /** Only a lone surrogate is ever replaced. */
  lemma {:induction false} RepairedIff(t: Text)
    ensures |Repaired(t)| == |t|
    ensures Repaired(t) == t <==> WellFormed(t)
  {
    if t != [] {
      if |t| >= 2 && IsHigh(t[0]) && IsLow(t[1]) {
        RepairedIff(t[2..]);
        assert t == [t[0], t[1]] + t[2..];
        assert Repaired(t)[2..] == Repaired(t[2..]);
      } else {
        RepairedIff(t[1..]);
        assert t == [t[0]] + t[1..];
        assert Repaired(t)[1..] == Repaired(t[1..]);
      }
    }
  }

  /** The bytes of a text give the text back exactly when it is well formed. */
  lemma RoundTripIff(t: Text)
    ensures Decode(Encode(t)) == t <==> WellFormed(t)
  {
    DecodeEncode(t);
    RepairedIff(t);
  }

  /** So on well-formed texts the encoding is one to one. */
  lemma EncodeIsOneToOne(t: Text, u: Text)
    requires WellFormed(t) && WellFormed(u) && Encode(t) == Encode(u)
    ensures t == u
  {
    RoundTripIff(t);
    RoundTripIff(u);
  }
}
