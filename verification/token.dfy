/**
 * The identity cookie's value: the JSON text of a `Cookie`, Base64 encoded
 * (`base64.StdEncoding.EncodeToString(json.Marshal(…))` and back).
 */
module Token {
  import opened Wrappers
  import opened GoStrings
  import opened Records
  import Base64
  import CookieJson

  datatype DecodeError = BadBase64 | BadJson

  /** The cookie value: only Base64 symbols and padding, so safe in a header. */
  function Encode(c: Cookie): (v: GoString)
    ensures |v| % 4 == 0
    ensures forall i | 0 <= i < |v| :: Base64.IsSymbol(v[i])
  {
    Base64.EncodedLength(CookieJson.Marshal(c));
    Base64.Encode(CookieJson.Marshal(c))
  }

  /** Base64 then JSON decoding; each stage reports its own failure. */
  function Decode(v: GoString): (r: Result<Cookie, DecodeError>)
    ensures |v| % 4 != 0 ==> r == Err(BadBase64)
  {
    match Base64.Decode(v)
    case None => Err(BadBase64)
    case Some(keks) =>
      match CookieJson.Unmarshal(keks)
      case None => Err(BadJson)
      case Some(c) => Ok(c)
  }

  /** Every cookie handed out decodes to the pair it was made from. */
  lemma {:induction false} RoundTrip(c: Cookie)
    ensures Decode(Encode(c)) == Ok(c)
  {
    Base64.RoundTrip(CookieJson.Marshal(c));
    CookieJson.RoundTrip(c);
  }

  /** An empty cookie value is valid Base64 but not JSON. */
  lemma EmptyIsBadJson()
    ensures Decode([]) == Err(BadJson)
  {
  }
}
