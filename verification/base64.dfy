/**
 * The standard Base64 encoding of section 4 of RFC 4648 as Go's
 * `base64.StdEncoding` applies it: padded with '=', and decoded in Go's
 * default (non-strict) mode, which ignores non-zero bits left over in the
 * last symbol before the padding.
 */
module Base64 {
  import opened Wrappers
  import opened GoStrings

  const Pad: Byte := 61  // '='

  /** The symbol for a 6-bit value: 'A'..'Z', 'a'..'z', '0'..'9', '+', '/'. */
  function Symbol(v: int): (c: Byte)
    requires 0 <= v < 64
    ensures IsSymbol(c) && c != Pad
    ensures Value(c) == Some(v)
  {
    if v < 26 then 65 + v
    else if v < 52 then 97 + (v - 26)
    else if v < 62 then 48 + (v - 52)
    else if v == 62 then 43
    else 47
  }

  /** The 6-bit value of a symbol of the alphabet, or None for any other byte. */
  function Value(c: Byte): (r: Option<int>)
    ensures r.Some? ==> 0 <= r.value < 64
  {
    if 65 <= c <= 90 then Some(c - 65)
    else if 97 <= c <= 122 then Some(c - 97 + 26)
    else if 48 <= c <= 57 then Some(c - 48 + 52)
    else if c == 43 then Some(62)
    else if c == 47 then Some(63)
    else None
  }

  /** A byte that may appear in an encoded string: a symbol or the padding. */
  predicate IsSymbol(c: Byte) {
    Value(c).Some? || c == Pad
  }

  /** Three bytes become four symbols, six bits each, most significant first. */
  function EncodeGroup(b0: Byte, b1: Byte, b2: Byte): seq<Byte> {
    [Symbol(b0 / 4), Symbol((b0 % 4) * 16 + b1 / 16), Symbol((b1 % 16) * 4 + b2 / 64), Symbol(b2 % 64)]
  }

  /** `StdEncoding.EncodeToString`. */
  function Encode(b: seq<Byte>): (s: GoString)
    ensures |s| == (|b| + 2) / 3 * 4
    ensures forall i | 0 <= i < |s| :: IsSymbol(s[i])
  {
    if |b| == 0 then []
    else if |b| == 1 then [Symbol(b[0] / 4), Symbol((b[0] % 4) * 16), Pad, Pad]
    else if |b| == 2 then [Symbol(b[0] / 4), Symbol((b[0] % 4) * 16 + b[1] / 16), Symbol((b[1] % 16) * 4), Pad]
    else EncodeGroup(b[0], b[1], b[2]) + Encode(b[3..])
  }

  /** Every encoding is a whole number of quanta (by induction on the input). */
  lemma EncodedLength(b: seq<Byte>)
    ensures |Encode(b)| % 4 == 0
  {
  }

  /** The 3-byte group of four symbol values. */
  function DecodeGroup(v0: int, v1: int, v2: int, v3: int): seq<Byte>
    requires 0 <= v0 < 64 && 0 <= v1 < 64 && 0 <= v2 < 64 && 0 <= v3 < 64
  {
    [v0 * 4 + v1 / 16, (v1 % 16) * 16 + v2 / 4, (v2 % 4) * 64 + v3]
  }

  /**
   * One quantum of four bytes. Padding is accepted only in the last quantum,
   * as "xx==" (one byte) or "xxx=" (two bytes).
   */
  function DecodeQuantum(c0: Byte, c1: Byte, c2: Byte, c3: Byte, last: bool): (r: Option<seq<Byte>>)
    ensures r.Some? ==> 1 <= |r.value| <= 3
    ensures r.Some? && |r.value| < 3 ==> last
  {
    var v0, v1, v2, v3 := Value(c0), Value(c1), Value(c2), Value(c3);
    if v0.None? || v1.None? then None
    else if c2 == Pad && c3 == Pad then
      if last then Some([v0.value * 4 + v1.value / 16]) else None
    else if v2.None? then None
    else if c3 == Pad then
      if last then Some([v0.value * 4 + v1.value / 16, (v1.value % 16) * 16 + v2.value / 4]) else None
    else if v3.None? then None
    else Some(DecodeGroup(v0.value, v1.value, v2.value, v3.value))
  }

  /**
   * `StdEncoding.DecodeString`: None when the input is not a whole number of
   * quanta, holds a byte outside the alphabet, or pads anywhere but at the end.
   */
  function Decode(s: GoString): (r: Option<seq<Byte>>)
    ensures |s| % 4 != 0 ==> r == None
    ensures r.Some? ==> |r.value| <= |s| / 4 * 3
    decreases |s|
  {
    if |s| == 0 then Some([])
    else if |s| < 4 then None
    else
      match DecodeQuantum(s[0], s[1], s[2], s[3], |s| == 4)
      case None => None
      case Some(head) =>
        match Decode(s[4..])
        case None => None
        case Some(tail) => Some(head + tail)
  }

  /** Regrouping the four 6-bit values of a group gives back its three bytes. */
  lemma Regroup(b0: Byte, b1: Byte, b2: Byte)
    ensures DecodeGroup(b0 / 4, (b0 % 4) * 16 + b1 / 16, (b1 % 16) * 4 + b2 / 64, b2 % 64) == [b0, b1, b2]
  {
    var x := (b0 % 4) * 16 + b1 / 16;
    assert x / 16 == b0 % 4 && x % 16 == b1 / 16;
    var y := (b1 % 16) * 4 + b2 / 64;
    assert y / 4 == b1 % 16 && y % 4 == b2 / 64;
  }

  lemma GroupRoundTrip(b0: Byte, b1: Byte, b2: Byte, last: bool)
    ensures var g := EncodeGroup(b0, b1, b2);
      DecodeQuantum(g[0], g[1], g[2], g[3], last) == Some([b0, b1, b2])
  {
    Regroup(b0, b1, b2);
  }

  lemma TailRoundTrip1(b0: Byte)
    ensures Decode(Encode([b0])) == Some([b0])
  {
    var s := Encode([b0]);
    var v1 := (b0 % 4) * 16;
    assert v1 / 16 == b0 % 4;
    assert s == [Symbol(b0 / 4), Symbol(v1), Pad, Pad];
    var head := [b0 / 4 * 4 + v1 / 16];
    assert DecodeQuantum(s[0], s[1], s[2], s[3], true) == Some(head);
    assert Decode(s[4..]) == Some([]);
    assert head + [] == head == [b0];
  }

  lemma TailRoundTrip2(b0: Byte, b1: Byte)
    ensures Decode(Encode([b0, b1])) == Some([b0, b1])
  {
    var s := Encode([b0, b1]);
    var v1, v2 := (b0 % 4) * 16 + b1 / 16, (b1 % 16) * 4;
    assert v1 / 16 == b0 % 4 && v1 % 16 == b1 / 16;
    assert v2 / 4 == b1 % 16;
    assert s == [Symbol(b0 / 4), Symbol(v1), Symbol(v2), Pad];
    assert Value(s[2]) == Some(v2);
    var head := [b0 / 4 * 4 + v1 / 16, (v1 % 16) * 16 + v2 / 4];
    assert DecodeQuantum(s[0], s[1], s[2], s[3], true) == Some(head);
    assert Decode(s[4..]) == Some([]);
    assert head + [] == head == [b0, b1];
  }

  /** Decoding undoes encoding, for every byte string. */
  lemma {:induction false} RoundTrip(b: seq<Byte>)
    ensures Decode(Encode(b)) == Some(b)
    decreases |b|
  {
    if |b| == 1 {
      TailRoundTrip1(b[0]);
      assert b == [b[0]];
    } else if |b| == 2 {
      TailRoundTrip2(b[0], b[1]);
      assert b == [b[0], b[1]];
    } else if |b| >= 3 {
      var s := Encode(b);
      GroupRoundTrip(b[0], b[1], b[2], |s| == 4);
      assert s[..4] == EncodeGroup(b[0], b[1], b[2]);
      assert s[4..] == Encode(b[3..]);
      RoundTrip(b[3..]);
      assert b == [b[0], b[1], b[2]] + b[3..];
    }
  }
}
