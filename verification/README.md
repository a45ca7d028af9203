# yarpnarp in Dafny

yarpnarp is the small web service behind the NoName e.V. attendance form.
A member sends a POST with their nick, "Yarp" or not in `kommt`, a free-text
`kommentar` and the captcha phrase "NoName e.V.". The entry (a *Zusage*) is
stored under the trimmed nick, a change hook runs, and the browser gets a
`yarpnarp` cookie. The cookie is the standard base64 encoding (RFC 4648,
section 4) of the JSON object `{"Nick":…,"Kommentar":…}`, and the reply
redirects with 303 to `/yarpnarp.html`. A later GET with that cookie shows the
stored entry for the nick. A non-empty comment from the cookie replaces the
stored comment. Every other HTTP method gets a 405.

The model follows `yarpnarp/main.go` and is layered as follows:

- `gostrings.dfy`: Go strings as byte sequences, and `strings.TrimSpace`.
- `base64.dfy`: `base64.StdEncoding` encoding and decoding, with a round trip.
- `cookiejson.dfy`: `json.Marshal` and `json.Unmarshal` for the two-field
  `Cookie` struct, with Go's string escaping and a round trip.
- `token.dfy`: the cookie value, i.e. base64 over the JSON. It has a round
  trip and distinguishes the two decoding errors.
- `records.dfy`: the `Zusage` and `Cookie` structs.
- `store.dfy`: the attendance table as a map from nick to entry. It has the
  lookup and upsert behaviour that `GetZusage` and `Zusage.Put` rely on.
- `protocol.dfy`: the handlers' decisions as pure functions (`Validate`,
  `Post`, `Commit`, `Get`, `Handle`) over a state of stored rows plus a log
  of external calls (Puts and hook runs). It also holds the properties that
  relate several requests.
- `yarpnarp.dfy`: the handlers as methods of a `Server` class. The class
  holds the rows and the call log, which the methods update in place. A
  `ResponseWriter` class records what each handler writes. Every handler
  method is proved to produce exactly the state and the writes given by the
  functions of `protocol.dfy`.

The database, the hook command and the HTTP server are outside the model. A
Put's success or failure is a parameter (`putFails`). The hook is recorded
as a call in the log.

Where the code and its description differ, the model follows the code:

- A cookie that fails to decode (bad base64 or bad JSON) is answered with
  500 "Something went wrong". It is not treated as an absent cookie.
- On a GET, a non-empty comment in the cookie overrides the stored comment.
- When the Put fails, the handler writes a 400 "An error occurred." and then
  goes on (`main.go:123-126` has no `return`). The hook still runs, and
  `http.SetCookie` and `http.Redirect` are still called. But `writeError` has
  already sent the 400 status and its headers. The `Set-Cookie` and
  `Location` headers added afterwards never reach the client, which receives
  only the 400 and its body. The model records the calls in order.
- The hook runs after every accepted POST, even when nothing was stored.

## Model

| member | source | states |
|---|---|---|
| GoStrings.TrimSpace | yarpnarp/main.go:104 | The trimmed nick neither starts nor ends with white space, and it is empty exactly when the input is all white space |
| GoStrings.TrimSpaceIsSlice | yarpnarp/main.go:104 | `TrimSpace` removes only a white-space prefix and a white-space suffix: the result is a contiguous slice of the input |
| GoStrings.TrimSpaceUnchanged | yarpnarp/main.go:87-88 | A string whose ends are not white space is left as it is |
| GoStrings.TrimSpaceIdempotent | yarpnarp/main.go:87 | Trimming an already trimmed nick again (as a GET does with the cookie's nick) changes nothing |
| Base64.Encode | yarpnarp/main.go:137 | `EncodeToString` produces 4 symbols per started 3-byte group, all from the standard alphabet or `=` |
| Base64.EncodedLength | yarpnarp/main.go:137 | The encoding is always padded to a multiple of 4 |
| Base64.Decode | yarpnarp/main.go:73-78 | `DecodeString` fails on any length that is not a multiple of 4, and yields at most 3 bytes per quantum |
| Base64.Regroup | yarpnarp/main.go:73 | The four 6-bit values of a full group regroup into its three bytes |
| Base64.GroupRoundTrip | yarpnarp/main.go:73 | A full encoded quantum decodes back to its three bytes, whether or not it is the last one |
| Base64.TailRoundTrip1 | yarpnarp/main.go:73 | A padded `xx==` quantum decodes to its single byte |
| Base64.TailRoundTrip2 | yarpnarp/main.go:73 | A padded `xxx=` quantum decodes to its two bytes |
| Base64.RoundTrip | yarpnarp/main.go:73 | Decoding what was encoded gives back every byte sequence |
| CookieJson.HexDigit | yarpnarp/main.go:130 | The hex digit written in a `\u00XX` escape reads back as its value |
| CookieJson.EscapeByte | yarpnarp/main.go:130 | An escaped byte contains no control byte and never starts with a bare quote; only bytes that need no escape are copied unchanged |
| CookieJson.Escape | yarpnarp/main.go:130 | An escaped string is at least as long as the input and contains no control byte |
| CookieJson.ParseString | yarpnarp/main.go:82 | Reading a JSON string consumes at least its closing quote |
| CookieJson.ParseStringLeavesSuffix | yarpnarp/main.go:82 | What remains after a string literal is a suffix of the text it was read from |
| CookieJson.ParseMember | yarpnarp/main.go:82 | A member is read only from text that starts with its key prefix, and what remains after it is a strict suffix of that text |
| CookieJson.Marshal | yarpnarp/main.go:130 | The marshalled cookie opens with `{"Nick":"`, closes with `}`, and is at least as long as the two fields plus the fixed text |
| CookieJson.Unmarshal | yarpnarp/main.go:82-86 | An accepted text opens with `{"Nick":"`, closes with `}`, and is long enough to hold both member keys and their quotes |
| CookieJson.EscapeByteRoundTrip | yarpnarp/main.go:82 | Reading an escaped byte gives back that byte, followed by what reading the rest gives |
| CookieJson.ParseEscaped | yarpnarp/main.go:82 | Reading an escaped string up to its closing quote gives back the string and leaves the rest untouched |
| CookieJson.ParseMemberEscaped | yarpnarp/main.go:82 | A member's key prefix followed by an escaped value reads back as that value |
| CookieJson.UnmarshalMembers | yarpnarp/main.go:82 | Two members read in order, followed by the closing brace, make up the cookie |
| CookieJson.RoundTrip | yarpnarp/main.go:130 | Unmarshalling the marshalled cookie gives back the same nick and comment, for a valid UTF-8 nick and comment (the model's codec does so for every byte string) |
| Token.Encode | yarpnarp/main.go:130-137 | The cookie value has a length that is a multiple of 4 and holds only base64 symbols |
| Token.Decode | yarpnarp/main.go:73-86 | A cookie value whose length is not a multiple of 4 is a base64 error |
| Token.RoundTrip | yarpnarp/main.go:73-86 | The cookie set by a POST decodes, as a GET decodes it, to the cookie that was encoded, for a valid UTF-8 nick and comment |
| Token.EmptyIsBadJson | yarpnarp/main.go:82-85 | An empty cookie value passes base64 but fails as JSON |
| Store.Lookup | yarpnarp/main.go:88 | `GetZusage` returns an entry for the nick asked for; `HasKommt` holds exactly when a row is stored, and a missing nick attends not and has no comment |
| Store.Upsert | yarpnarp/main.go:122 | `Put` adds the nick's key and leaves every other row as it was |
| Store.UpsertWellKeyed | yarpnarp/main.go:120-122 | Storing an entry with `HasKommt` keeps every row filed under its own nick |
| Store.UpsertThenLookup | yarpnarp/main.go:122 | After a Put, `GetZusage` of the nick returns exactly the entry put |
| Store.UpsertKeepsOthers | yarpnarp/main.go:122 | A Put does not change what any other nick looks up |
| Store.UpsertOverwrites | yarpnarp/main.go:122 | A second Put for the same nick replaces the first completely |
| Protocol.FormValue | yarpnarp/main.go:104-108 | `FormValue` is the submitted field, or the empty string for an absent one |
| Protocol.Validate | yarpnarp/main.go:104-116 | The captcha check comes first and rejects exactly a wrong phrase; with the right captcha, a blank nick (white space only) is rejected; otherwise the entry carries the trimmed non-empty nick, `kommt` exactly when the field is "Yarp", the raw comment and `HasKommt`; an absent `kommt` means not attending |
| Protocol.HookRuns | yarpnarp/main.go:128 | The hook-run count is zero exactly when the call log holds no hook run |
| Protocol.HookRunsAppend | yarpnarp/main.go:128 | Hook runs of two call logs add up |
| Protocol.Post | yarpnarp/main.go:103-141 | `handlePost` always writes something. A rejected form changes nothing and sets no cookie. An accepted one makes exactly two external calls (Put and hook). No row other than the posted nick's changes |
| Protocol.Commit | yarpnarp/main.go:120-141 | Committing extends the call log, adds no key but the entry's nick, keeps every other row, and ends the reply with the 303 redirect |
| Protocol.View | yarpnarp/main.go:69-92 | The entry shown by a GET is an error exactly when a cookie is present and fails to decode. A shown entry with `HasKommt` is a stored row's nick with the stored attendance; one without `HasKommt` does not attend |
| Protocol.Get | yarpnarp/main.go:69-101 | `handleGet` writes exactly one thing, never a cookie: the rendered entry or the 500 "Something went wrong" |
| Protocol.Handle | yarpnarp/main.go:48-67 | Every request writes something. Only a POST can change the state. The call log only grows |
| Protocol.Dispatch | yarpnarp/main.go:55-66 | POST goes to `handlePost`, GET to `handleGet` without changing the state, and every other method is a 405 with an empty body that changes nothing |
| Protocol.BadCaptchaRejected | yarpnarp/main.go:108-111 | A wrong captcha is exactly one 400 with the captcha message: nothing stored, no hook, no cookie |
| Protocol.BlankNickRejected | yarpnarp/main.go:113-116 | With the right captcha, a white-space-only nick is exactly one 400 with the nick message and has no other effect |
| Protocol.CommitEffects | yarpnarp/main.go:120-140 | An accepted entry is Put, then the hook runs, whatever the Put answered; a failed Put stores nothing, and a 400 is written exactly when it fails; the reply always ends with the cookie and the 303 redirect |
| Protocol.AcceptedPost | yarpnarp/main.go:104-122 | A form with the right captcha and a non-blank nick commits the entry built from the trimmed nick, `kommt == "Yarp"`, the raw comment and `HasKommt` |
| Protocol.CommitRunsHookOnce | yarpnarp/main.go:122-128 | Committing an entry adds exactly one hook run |
| Protocol.HookRunsOncePerAcceptedPost | yarpnarp/main.go:108-128 | A POST runs the hook once if the form is accepted and never if it is rejected |
| Protocol.PostCookieRoundTrip | yarpnarp/main.go:130-138 | An accepted POST sets the cookie, and that cookie decodes to the trimmed nick and the submitted comment, for a valid UTF-8 nick and comment |
| Protocol.NoCookieShowsZero | yarpnarp/main.go:70-72 | A GET without the cookie renders the zero entry |
| Protocol.BadCookieIsServerError | yarpnarp/main.go:73-86 | A GET whose cookie fails base64 or JSON decoding is exactly one 500 "Something went wrong" |
| Protocol.CookieShowsStoredEntry | yarpnarp/main.go:87-91 | A GET with a decodable cookie renders the stored row of the cookie's trimmed nick, or a row holding only the nick; a non-empty cookie comment replaces the stored one |
| Protocol.HandleKeepsWellKeyed | yarpnarp/main.go:48-66 | No request breaks the invariant that every stored row is filed under its own nick |
| Protocol.PostThenGet | yarpnarp/main.go:87-140 | After an accepted and stored POST, a GET with the cookie it set renders exactly the stored entry, for a valid UTF-8 nick and comment |
| Protocol.SecondPostOverwrites | yarpnarp/main.go:120-122 | Two accepted POSTs for the same nick leave the second entry stored, in full |
| YarpNarp.ResponseWriter.constructor | yarpnarp/main.go:48 | A fresh response has nothing written |
| YarpNarp.ResponseWriter.WriteError | yarpnarp/main.go:43-46 | `writeError` appends a status code with its body |
| YarpNarp.ResponseWriter.SetCookie | yarpnarp/main.go:138 | `http.SetCookie` appends the `yarpnarp` cookie |
| YarpNarp.ResponseWriter.Redirect | yarpnarp/main.go:140 | `http.Redirect` appends the redirect |
| YarpNarp.ResponseWriter.ExecuteTemplate | yarpnarp/main.go:94 | Executing the template appends the rendered entry |
| YarpNarp.Server.constructor | yarpnarp/main.go:152-155 | The server starts with the given well-keyed table and no calls made |
| YarpNarp.Server.GetZusage | yarpnarp/main.go:88 | Returns the stored row of the nick, or the entry holding only the nick, and changes nothing |
| YarpNarp.Server.Put | yarpnarp/main.go:122-126 | Logs the Put and reports the database's answer; a successful Put upserts the entry, a failed one leaves the rows alone; rows stay well keyed |
| YarpNarp.Server.RunHook | yarpnarp/main.go:128 | Logs one hook run and changes nothing else |
| YarpNarp.Server.HandlePost | yarpnarp/main.go:103-141 | Leaves exactly the state and appends exactly the writes that `Protocol.Post` gives |
| YarpNarp.Server.Commit | yarpnarp/main.go:120-141 | Put, 400 on failure, hook, cookie, redirect, in that order. Rows, call log and writes are those of `Protocol.Commit`, and the rows stay well keyed |
| YarpNarp.Server.IssueCookie | yarpnarp/main.go:130-140 | Appends the `yarpnarp` cookie carrying the entry's token, then the 303 redirect to `/yarpnarp.html` |
| YarpNarp.Server.HandleGet | yarpnarp/main.go:69-101 | Changes no rows and appends exactly the writes that `Protocol.Get` gives |
| YarpNarp.Server.YarpNarpHandler | yarpnarp/main.go:48-67 | Each request leaves exactly the state and the writes that `Protocol.Handle` gives, and keeps the rows well keyed |

## Left out

- Template parsing and rendering (`main.go:50-53`, `94-98`, `157-160`): `ExecuteTemplate` is recorded as a `Render` of the entry. `log.Fatal` on a bad template and the logged rendering error are not modelled.
- `db.go` is not part of this model. The model assumes the following of `GetZusage` and `Zusage.Put`:
  - A stored row is returned as stored.
  - A missing nick yields `Zusage{Nick: nick}`.
  - A successful Put upserts the whole entry; a failed Put changes nothing.
  - Whether a Put fails is a parameter.
- `RunHook`'s external process: only the fact and the order of each run are recorded.
- Command-line flags and globals (`main.go:19-24`), the unused `idRe` and `loc` (`main.go:26-28`), SIGPIPE handling (`main.go:146-150`), `OpenDB`, `ListenAndServe` and all logging: these are process set-up and I/O.
- Concurrency between requests: each request is modelled as one atomic step.
- How `net/http` turns the writes into one response is not modelled. Once `WriteHeader` has run, later status codes and header changes are dropped. So after a failed Put the client receives only the 400 and its body, without the cookie or the redirect. The model keeps the ordered list of calls made on the writer.
- The cookie's `Expires` date (2030) is not modelled.
- How the request body and the query are merged into the form, and how the `Cookie` header is parsed, are not modelled: the request carries a form map and an optional cookie value.
- GoStrings.TrimSpace: only ASCII white space is trimmed. Unicode white space such as U+0085 and U+00A0 is not modelled.
- CookieJson.Marshal: escapes as Go before 1.22 does, writing `\u00XX` for control bytes and for `<`, `>` and `&`. It copies every byte from 0x80 up unchanged. Go instead replaces each byte that is not part of valid UTF-8 with `\ufffd`, and escapes U+2028 and U+2029.
- CookieJson.RoundTrip: holds for the model's codec on every byte string. Of the program it holds only when the nick and the comment are valid UTF-8. Go's `json.Marshal` writes U+FFFD (EF BF BD) for each invalid byte, and `json.Unmarshal` also turns raw invalid bytes into U+FFFD. A nick sent as `%FF` therefore comes back from the cookie as EF BF BD.
- Token.RoundTrip: true of the program only for a valid UTF-8 nick and comment, for the reason given under CookieJson.RoundTrip.
- Protocol.PostCookieRoundTrip: true of the program only for a valid UTF-8 nick and comment, for the reason given under CookieJson.RoundTrip.
- Protocol.PostThenGet: true of the program only for a valid UTF-8 nick and comment. With an invalid byte, Go's cookie decodes to a different nick, whose stored row is shown instead.
- CookieJson.Unmarshal: accepts only the member order and spacing that `Marshal` writes, with the escapes `\" \\ \/ \b \f \n \r \t \u00XX` (XX below 0x80). Other valid JSON, such as other spacing, member order, case-insensitive keys, unknown keys, `null` and non-ASCII `\u` escapes, is a decoding failure in the model, whereas Go would accept it.
- Base64.Decode: does not model the skipping of `\r` and `\n` that Go's decoder performs. Non-zero trailing bits in a padded quantum are ignored, as in Go's non-strict decoding.
- The `json.Marshal` error branch (`main.go:131-135`) is left out, because marshalling two strings cannot fail.
