/**
 * `encoding/json` applied to the `Cookie` record. `Marshal` emits the object
 * `{"Nick":"…","Kommentar":"…"}` with Go's escaping (HTML-safe, the escape
 * set of Go releases before 1.22); `Unmarshal` reads back that layout and
 * understands every escape JSON allows for an ASCII byte.
 */
module CookieJson {
  import opened Wrappers
  import opened GoStrings
  import opened Records

  const Quote: Byte := 34      // '"'
  const Backslash: Byte := 92  // '\'

  /** No byte below 0x20: JSON text may not hold a raw control character. */
  predicate NoControl(s: GoString) {
    forall i | 0 <= i < |s| :: s[i] >= 32
  }

  /** Go's `hex` table: lower-case digits. */
  function HexDigit(v: int): (c: Byte)
    requires 0 <= v < 16
    ensures HexValue(c) == Some(v)
  {
    if v < 10 then 48 + v else 97 + (v - 10)
  }

  /** The value of a hexadecimal digit of either case. */
  function HexValue(c: Byte): (r: Option<int>)
    ensures r.Some? ==> 0 <= r.value < 16
  {
    if 48 <= c <= 57 then Some(c - 48)
    else if 97 <= c <= 102 then Some(c - 97 + 10)
    else if 65 <= c <= 70 then Some(c - 65 + 10)
    else None
  }

  /**
   * The JSON text of one byte inside a string literal. Bytes from 0x80 up are
   * copied, as Go copies valid UTF-8.
   */
  function EscapeByte(b: Byte): (e: GoString)
    ensures 1 <= |e| && NoControl(e)
    ensures e[0] != Quote
    ensures |e| == 1 <==> e == [b]
  {
    if b == Quote || b == Backslash then [Backslash, b]
    else if b == 10 then [Backslash, 110]  // \n
    else if b == 13 then [Backslash, 114]  // \r
    else if b == 9 then [Backslash, 116]   // \t
    else if b < 32 || b == 60 || b == 62 || b == 38 then  // controls and '<', '>', '&'
      [Backslash, 117, 48, 48, HexDigit(b / 16), HexDigit(b % 16)]  // \u00XX
    else [b]
  }

  /** The body of a JSON string literal for `s`: no raw control byte survives. */
  function Escape(s: GoString): (e: GoString)
    ensures |e| >= |s|
    ensures NoControl(e)
  {
    if s == [] then [] else EscapeByte(s[0]) + Escape(s[1..])
  }

  function Prepend(b: Byte, r: Option<(GoString, GoString)>): Option<(GoString, GoString)> {
    match r
    case None => None
    case Some((s, rest)) => Some(([b] + s, rest))
  }

  /**
   * Reads the body of a string literal up to its closing quote; the result
   * is the decoded string and what follows the quote. None for a missing
   * quote, a raw control byte or an escape JSON does not define (a `\u`
   * escape above U+007F is outside this model).
   */
  function ParseString(t: GoString): (r: Option<(GoString, GoString)>)
    ensures r.Some? ==> |r.value.1| < |t|
    decreases |t|
  {
    if t == [] then None
    else if t[0] == Quote then Some(([], t[1..]))
    else if t[0] == Backslash then
      if |t| < 2 then None
      else if t[1] == Quote || t[1] == Backslash || t[1] == 47 then Prepend(t[1], ParseString(t[2..]))  // \" \\ \/
      else if t[1] == 98 then Prepend(8, ParseString(t[2..]))    // \b
      else if t[1] == 102 then Prepend(12, ParseString(t[2..]))  // \f
      else if t[1] == 110 then Prepend(10, ParseString(t[2..]))  // \n
      else if t[1] == 114 then Prepend(13, ParseString(t[2..]))  // \r
      else if t[1] == 116 then Prepend(9, ParseString(t[2..]))   // \t
      else if |t| >= 6 && t[1] == 117 && t[2] == 48 && t[3] == 48
              && HexValue(t[4]).Some? && HexValue(t[4]).value < 8 && HexValue(t[5]).Some? then
        Prepend(HexValue(t[4]).value * 16 + HexValue(t[5]).value, ParseString(t[6..]))  // \u00XX
      else None
    else if t[0] < 32 then None
    else Prepend(t[0], ParseString(t[1..]))
  }

  /** What follows a string literal is a suffix of the text it was read from. */
  lemma {:induction false} ParseStringLeavesSuffix(t: GoString)
    ensures ParseString(t).Some? ==> ParseString(t).value.1 == t[|t| - |ParseString(t).value.1|..]
    decreases |t|
  {
    if |t| >= 2 && t[0] == Backslash {
      ParseStringLeavesSuffix(t[2..]);
      if |t| >= 6 {
        ParseStringLeavesSuffix(t[6..]);
      }
    } else if t != [] && t[0] != Quote {
      ParseStringLeavesSuffix(t[1..]);
    }
  }

  const NickOpen: GoString := [123, 34, 78, 105, 99, 107, 34, 58, 34]  // {"Nick":"
  const KommentarOpen: GoString := [44, 34, 75, 111, 109, 109, 101, 110, 116, 97, 114, 34, 58, 34]  // ,"Kommentar":"
  const Close: GoString := [125]  // }

  /** `json.Marshal(Cookie{…})`: Go emits the fields in declaration order. */
  function Marshal(c: Cookie): (j: GoString)
    ensures |j| >= |NickOpen| + |c.nick| + |KommentarOpen| + |c.kommentar| + 3
    ensures j[..|NickOpen|] == NickOpen && j[|j| - 1] == Close[0]
  {
    NickOpen + (Escape(c.nick) + [Quote] + (KommentarOpen + (Escape(c.kommentar) + [Quote] + Close)))
  }

  /** A member of the object: its fixed opening, then a string literal. */
  function ParseMember(open: GoString, t: GoString): (r: Option<(GoString, GoString)>)
    ensures r.Some? ==> |open| <= |t| && t[..|open|] == open
    ensures r.Some? ==> |r.value.1| < |t| - |open| && r.value.1 == t[|t| - |r.value.1|..]
  {
    if |t| < |open| || t[..|open|] != open then None
    else
      ParseStringLeavesSuffix(t[|open|..]);
      ParseString(t[|open|..])
  }

  /** `json.Unmarshal` into a `Cookie`, for the layout `Marshal` produces. */
  function Unmarshal(j: GoString): (r: Option<Cookie>)
    ensures r.Some? ==> |j| >= |NickOpen| + |KommentarOpen| + |Close| + 2
    ensures r.Some? ==> j[..|NickOpen|] == NickOpen && j[|j| - 1] == Close[0]
  {
    match ParseMember(NickOpen, j)
    case None => None
    case Some((nick, rest)) =>
      match ParseMember(KommentarOpen, rest)
      case None => None
      case Some((kommentar, rest')) =>
        if rest' == Close then Some(Cookie(nick, kommentar)) else None
  }

  /** One escaped byte is read back as that byte. */
  lemma EscapeByteRoundTrip(b: Byte, t: GoString)
    ensures ParseString(EscapeByte(b) + t) == Prepend(b, ParseString(t))
  {
    var e := EscapeByte(b);
    if b == Quote || b == Backslash || b == 10 || b == 13 || b == 9 {
      assert e + t == [Backslash, e[1]] + t;
      assert (e + t)[2..] == t;
    } else if b < 32 || b == 60 || b == 62 || b == 38 {
      var hi, lo := HexDigit(b / 16), HexDigit(b % 16);
      assert e + t == [Backslash, 117, 48, 48, hi, lo] + t;
      assert (e + t)[6..] == t;
      assert HexValue(hi) == Some(b / 16) && HexValue(lo) == Some(b % 16);
    } else {
      assert e + t == [b] + t;
      assert (e + t)[1..] == t;
    }
  }

  /** The body of a string literal is read back up to its closing quote. */
  lemma {:induction false} ParseEscaped(s: GoString, rest: GoString)
    ensures ParseString(Escape(s) + [Quote] + rest) == Some((s, rest))
    decreases |s|
  {
    var t := Escape(s) + [Quote] + rest;
    if s == [] {
      assert t == [Quote] + rest && t[1..] == rest;
    } else {
      var tail := Escape(s[1..]) + [Quote] + rest;
      assert Escape(s) == EscapeByte(s[0]) + Escape(s[1..]);
      assert t == EscapeByte(s[0]) + tail;
      EscapeByteRoundTrip(s[0], tail);
      ParseEscaped(s[1..], rest);
      assert [s[0]] + s[1..] == s;
    }
  }

  lemma ParseMemberEscaped(open: GoString, s: GoString, rest: GoString)
    ensures ParseMember(open, open + (Escape(s) + [Quote] + rest)) == Some((s, rest))
  {
    var t := open + (Escape(s) + [Quote] + rest);
    assert t[..|open|] == open && t[|open|..] == Escape(s) + [Quote] + rest;
    ParseEscaped(s, rest);
  }

  lemma UnmarshalMembers(j: GoString, nick: GoString, tail: GoString, kommentar: GoString)
    requires ParseMember(NickOpen, j) == Some((nick, tail))
    requires ParseMember(KommentarOpen, tail) == Some((kommentar, Close))
    ensures Unmarshal(j) == Some(Cookie(nick, kommentar))
  {
  }

  /** Unmarshal recovers exactly the cookie Marshal was given. */
  lemma {:induction false} RoundTrip(c: Cookie)
    ensures Unmarshal(Marshal(c)) == Some(c)
  {
    var tail := KommentarOpen + (Escape(c.kommentar) + [Quote] + Close);
    var j := NickOpen + (Escape(c.nick) + [Quote] + tail);
    assert Marshal(c) == j;
    ParseMemberEscaped(NickOpen, c.nick, tail);
    ParseMemberEscaped(KommentarOpen, c.kommentar, Close);
    UnmarshalMembers(j, c.nick, tail, c.kommentar);
  }
}
