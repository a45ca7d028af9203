/**
 * The decision rules of the attendance form, as pure functions of the
 * request and the stored rows: what a POST writes, what a GET shows, and
 * which method goes where. The handler methods in module YarpNarp are
 * proved to follow them.
 */
module Protocol {
  import opened Wrappers
  import opened GoStrings
  import opened Records
  import opened Store
  import Token

  const Yarp: GoString := [89, 97, 114, 112]  // "Yarp"
  const CaptchaAnswer: GoString := [78, 111, 78, 97, 109, 101, 32, 101, 46, 86, 46]  // "NoName e.V."
  const CookieName := "yarpnarp"
  const RedirectTarget := "/yarpnarp.html"
  const SeeOther := 303
  const BadRequest := 400
  const MethodNotAllowed := 405
  const InternalServerError := 500

  const CaptchaMessage := "Captcha muss ausgefüllt werden"
  const NickMessage := "Nick darf nicht leer sein"
  const PutMessage := "An error occurred."
  const CookieMessage := "Something went wrong"

  /** A request as the handlers see it: method, form fields and the `yarpnarp` cookie. */
  datatype Request = Request(verb: string, form: map<string, GoString>, cookie: Option<GoString>)

  /** `req.FormValue(key)`: the submitted value, or the empty string for an absent field. */
  function FormValue(form: map<string, GoString>, key: string): (v: GoString)
    ensures key in form ==> v == form[key]
    ensures key !in form ==> v == []
  {
    if key in form then form[key] else []
  }

  /** What a handler writes to its `http.ResponseWriter`, in order. */
  datatype Write =
    | WriteError(code: int, body: string)
    | SetCookie(name: string, value: GoString)
    | Redirect(location: string, code: int)
    | Render(zusage: Zusage)

  /** No cookie is set among the writes. */
  predicate SetsNoCookie(writes: seq<Write>) {
    forall i | 0 <= i < |writes| :: !writes[i].SetCookie?
  }

  /** The outcome of validating a submitted form. */
  datatype Verdict = BadCaptcha | EmptyNick | Accept(zusage: Zusage)

  /**
   * The field derivations and checks of a POST: the captcha must be exactly
   * the expected phrase, and is checked first; the nick is trimmed and must
   * not be empty; the entry attends exactly when `kommt` is "Yarp"; the
   * comment is kept as submitted.
   */
  function Validate(form: map<string, GoString>): (v: Verdict)
    ensures v.BadCaptcha? <==> FormValue(form, "captcha") != CaptchaAnswer
    ensures v.EmptyNick? <==> FormValue(form, "captcha") == CaptchaAnswer && AllSpace(FormValue(form, "nick"))
    ensures v.Accept? ==>
      && v.zusage.nick == TrimSpace(FormValue(form, "nick")) && v.zusage.nick != []
      && (v.zusage.kommt <==> FormValue(form, "kommt") == Yarp)
      && v.zusage.kommentar == FormValue(form, "kommentar")
      && v.zusage.hasKommt
    ensures v.Accept? && "kommt" !in form ==> !v.zusage.kommt
  {
    var nick := TrimSpace(FormValue(form, "nick"));
    var kommt := FormValue(form, "kommt") == Yarp;
    var kommentar := FormValue(form, "kommentar");
    if FormValue(form, "captcha") != CaptchaAnswer then BadCaptcha
    else if nick == [] then EmptyNick
    else Accept(Zusage(nick, kommt, kommentar, true))
  }

  /**
   * A call into code outside this model, in the order made: a Put of an entry
   * (with the database's answer) or a run of the change hook.
   */
  datatype Call = PutCall(zusage: Zusage, failed: bool) | HookCall

  /** How many times the hook has run: zero exactly when it never ran. */
  function HookRuns(calls: seq<Call>): (n: nat)
    ensures n == 0 <==> HookCall !in calls
  {
    if calls == [] then 0
    else HookRuns(calls[..|calls| - 1]) + (if calls[|calls| - 1] == HookCall then 1 else 0)
  }

  lemma {:induction false} HookRunsAppend(a: seq<Call>, b: seq<Call>)
    ensures HookRuns(a + b) == HookRuns(a) + HookRuns(b)
    decreases |b|
  {
    if b != [] {
      assert (a + b)[..|a + b| - 1] == a + b[..|b| - 1];
      HookRunsAppend(a, b[..|b| - 1]);
    } else {
      assert a + b == a;
    }
  }

  /** The state a request can change: the stored rows and the calls made so far. */
  datatype State = State(rows: Rows, calls: seq<Call>)

  /** The state after a request, and what the request wrote. */
  datatype Reply = Reply(next: State, writes: seq<Write>)

  /** The identity cookie handed out for an accepted entry. */
  function CookieFor(z: Zusage): GoString {
    Token.Encode(Cookie(z.nick, z.kommentar))
  }

  /**
   * `handlePost`. `putFails` is the database's answer to the Put. A
   * rejected form writes only its error; an accepted one is Put, the hook
   * runs whether or not the Put failed, and the cookie and the redirect
   * follow (after a 400 when the Put failed).
   */
  function Post(s: State, form: map<string, GoString>, putFails: bool): (r: Reply)
    ensures r.writes != []
    ensures !Validate(form).Accept? ==> r.next == s && SetsNoCookie(r.writes)
    ensures |r.next.calls| == |s.calls| + (if Validate(form).Accept? then 2 else 0)
    ensures forall n | n in s.rows && n != TrimSpace(FormValue(form, "nick")) :: n in r.next.rows && r.next.rows[n] == s.rows[n]
  {
    match Validate(form)
    case BadCaptcha => Reply(s, [WriteError(BadRequest, CaptchaMessage)])
    case EmptyNick => Reply(s, [WriteError(BadRequest, NickMessage)])
    case Accept(z) => Commit(s, z, putFails)
  }

  /**
   * The second half of `handlePost`, for an accepted entry: the Put (a
   * failure writes a 400 and stores nothing), then the hook whatever the
   * Put answered, then the cookie and the redirect.
   */
  /** What committing an entry writes: a 400 if the Put failed, then the cookie and the redirect. */
  function CommitWrites(z: Zusage, putFails: bool): seq<Write> {
    (if putFails then [WriteError(BadRequest, PutMessage)] else [])
    + [SetCookie(CookieName, CookieFor(z)), Redirect(RedirectTarget, SeeOther)]
  }

  /** A failed Put puts its 400 in front of what a successful commit writes. */
  lemma CommitWritesOnFailure(z: Zusage)
    ensures CommitWrites(z, true) == [WriteError(BadRequest, PutMessage)] + CommitWrites(z, false)
  {
  }

  function Commit(s: State, z: Zusage, putFails: bool): (r: Reply)
    ensures s.calls < r.next.calls
    ensures r.next.rows.Keys <= s.rows.Keys + {z.nick}
    ensures forall n | n in s.rows && n != z.nick :: n in r.next.rows && r.next.rows[n] == s.rows[n]
    ensures r.writes != [] && r.writes[|r.writes| - 1] == Redirect(RedirectTarget, SeeOther)
  {
    Reply(State(if putFails then s.rows else Upsert(s.rows, z), s.calls + [PutCall(z, putFails), HookCall]),
          CommitWrites(z, putFails))
  }

  /**
   * The entry a GET shows, or the cookie's decoding error. Without a cookie
   * it is the zero entry; with one, the stored entry of the cookie's trimmed
   * nick, whose comment a non-empty cookie comment replaces.
   */
  function View(rows: Rows, cookie: Option<GoString>): (r: Result<Zusage, Token.DecodeError>)
    requires WellKeyed(rows)
    ensures r.Err? <==> cookie.Some? && Token.Decode(cookie.value).Err?
    ensures r.Ok? && r.value.hasKommt ==> r.value.nick in rows && r.value.kommt == rows[r.value.nick].kommt
    ensures r.Ok? && !r.value.hasKommt ==> !r.value.kommt
  {
    match cookie
    case None => Ok(ZeroZusage)
    case Some(value) =>
      match Token.Decode(value)
      case Err(e) => Err(e)
      case Ok(c) =>
        var z := Lookup(rows, TrimSpace(c.nick));
        Ok(if c.kommentar != [] then z.(kommentar := c.kommentar) else z)
  }

  /** `handleGet`: a 500 for a cookie that does not decode, the rendered entry otherwise. */
  function Get(rows: Rows, cookie: Option<GoString>): (w: seq<Write>)
    requires WellKeyed(rows)
    ensures |w| == 1 && SetsNoCookie(w)
    ensures w[0].Render? || w[0] == WriteError(InternalServerError, CookieMessage)
  {
    match View(rows, cookie)
    case Err(_) => [WriteError(InternalServerError, CookieMessage)]
    case Ok(z) => [Render(z)]
  }

  /** `YarpNarpHandler`: POST, GET, and 405 for every other method. */
  function Handle(s: State, req: Request, putFails: bool): (r: Reply)
    requires WellKeyed(s.rows)
    ensures r.writes != []
    ensures req.verb != "POST" ==> r.next == s
    ensures s.calls <= r.next.calls
  {
    if req.verb == "POST" then Post(s, req.form, putFails)
    else if req.verb == "GET" then Reply(s, Get(s.rows, req.cookie))
    else Reply(s, [WriteError(MethodNotAllowed, "")])
  }

  // Properties of the rules

  /** Only a POST can change the state; GET and every other method leave it alone. */
  lemma Dispatch(s: State, req: Request, putFails: bool)
    requires WellKeyed(s.rows)
    ensures req.verb == "POST" ==> Handle(s, req, putFails) == Post(s, req.form, putFails)
    ensures req.verb == "GET" ==> Handle(s, req, putFails) == Reply(s, Get(s.rows, req.cookie))
    ensures req.verb != "POST" && req.verb != "GET" ==>
      Handle(s, req, putFails) == Reply(s, [WriteError(MethodNotAllowed, "")])
  {
  }

  /**
   * A wrong captcha is a 400 that stores nothing, runs no hook and sets no
   * cookie, whatever the other fields hold (so a form that also lacks a
   * nick gets the captcha error).
   */
  lemma BadCaptchaRejected(s: State, form: map<string, GoString>, putFails: bool)
    requires FormValue(form, "captcha") != CaptchaAnswer
    ensures Post(s, form, putFails) == Reply(s, [WriteError(BadRequest, CaptchaMessage)])
    ensures SetsNoCookie(Post(s, form, putFails).writes)
  {
  }

  /** With the right captcha, a nick of white space only is a 400 with no effect. */
  lemma BlankNickRejected(s: State, form: map<string, GoString>, putFails: bool)
    requires FormValue(form, "captcha") == CaptchaAnswer
    requires AllSpace(FormValue(form, "nick"))
    ensures Post(s, form, putFails) == Reply(s, [WriteError(BadRequest, NickMessage)])
    ensures SetsNoCookie(Post(s, form, putFails).writes)
  {
  }

  /**
   * The effects of committing an entry: the Put comes first and the hook
   * second, whatever the Put answered; a failed Put stores nothing and adds
   * a 400; the reply ends with the cookie and a 303 redirect.
   */
  lemma CommitEffects(s: State, z: Zusage, putFails: bool)
    ensures var r := Commit(s, z, putFails);
      && r.next.calls == s.calls + [PutCall(z, putFails), HookCall]
      && r.next.rows == (if putFails then s.rows else Upsert(s.rows, z))
      && |r.writes| >= 2
      && r.writes[|r.writes| - 2..] == [SetCookie(CookieName, CookieFor(z)), Redirect(RedirectTarget, SeeOther)]
      && (WriteError(BadRequest, PutMessage) in r.writes <==> putFails)
  {
    var r := Commit(s, z, putFails);
    var tail := [SetCookie(CookieName, CookieFor(z)), Redirect(RedirectTarget, SeeOther)];
    if putFails {
      assert r.writes == [WriteError(BadRequest, PutMessage)] + tail;
    } else {
      assert r.writes == tail;
    }
  }

  /**
   * An accepted form is committed whole: the Put carries the trimmed nick,
   * the attendance flag, the comment as submitted and `HasKommt`, and
   * nothing else decides what is stored.
   */
  lemma AcceptedPost(s: State, form: map<string, GoString>, putFails: bool)
    requires FormValue(form, "captcha") == CaptchaAnswer
    requires !AllSpace(FormValue(form, "nick"))
    ensures Post(s, form, putFails) ==
      Commit(s, Zusage(TrimSpace(FormValue(form, "nick")), FormValue(form, "kommt") == Yarp,
                       FormValue(form, "kommentar"), true), putFails)
  {
  }

  /** Committing adds exactly one hook run. */
  lemma {:induction false} CommitRunsHookOnce(calls: seq<Call>, z: Zusage, putFails: bool)
    ensures HookRuns(calls + [PutCall(z, putFails), HookCall]) == HookRuns(calls) + 1
  {
    var added := [PutCall(z, putFails), HookCall];
    HookRunsAppend(calls, added);
    assert added[..1] == [PutCall(z, putFails)] && [PutCall(z, putFails)][..0] == [];
  }

  /**
   * The hook runs once for a POST that passes validation and never for a
   * rejected one (other methods never change the state, by Dispatch).
   */
  lemma HookRunsOncePerAcceptedPost(s: State, form: map<string, GoString>, putFails: bool)
    ensures HookRuns(Post(s, form, putFails).next.calls) ==
      HookRuns(s.calls) + (if Validate(form).Accept? then 1 else 0)
  {
    if Validate(form).Accept? {
      var z := Validate(form).zusage;
      assert Post(s, form, putFails) == Commit(s, z, putFails);
      CommitRunsHookOnce(s.calls, z, putFails);
    }
  }

  /**
   * The cookie set by an accepted POST decodes, as a GET decodes it, to the
   * trimmed nick and the comment as submitted.
   */
  lemma {:induction false} PostCookieRoundTrip(s: State, form: map<string, GoString>, putFails: bool)
    requires Validate(form).Accept?
    ensures var z := Validate(form).zusage;
      && SetCookie(CookieName, CookieFor(z)) in Post(s, form, putFails).writes
      && Token.Decode(CookieFor(z)) == Ok(Cookie(TrimSpace(FormValue(form, "nick")), FormValue(form, "kommentar")))
  {
    var z := Validate(form).zusage;
    assert Post(s, form, putFails) == Commit(s, z, putFails);
    CommitEffects(s, z, putFails);
    var w := Commit(s, z, putFails).writes;
    assert w[|w| - 2] == SetCookie(CookieName, CookieFor(z));
    Token.RoundTrip(Cookie(z.nick, z.kommentar));
  }

  /** A GET without the cookie shows the zero entry. */
  lemma NoCookieShowsZero(rows: Rows)
    requires WellKeyed(rows)
    ensures Get(rows, None) == [Render(ZeroZusage)]
  {
  }

  /** A cookie that fails Base64 or JSON decoding is a 500 and nothing is rendered. */
  lemma BadCookieIsServerError(rows: Rows, value: GoString)
    requires WellKeyed(rows)
    requires Token.Decode(value).Err?
    ensures Get(rows, Some(value)) == [WriteError(InternalServerError, CookieMessage)]
  {
  }

  /**
   * With a valid cookie a GET shows the stored entry of the cookie's trimmed
   * nick; its comment is the cookie's when that is non-empty and the stored
   * one otherwise.
   */
  lemma CookieShowsStoredEntry(rows: Rows, value: GoString, c: Cookie)
    requires WellKeyed(rows)
    requires Token.Decode(value) == Ok(c)
    ensures View(rows, Some(value)).Ok?
    ensures var z, nick := View(rows, Some(value)).value, TrimSpace(c.nick);
      && Get(rows, Some(value)) == [Render(z)]
      && z.nick == nick
      && z.hasKommt == (nick in rows)
      && z.kommt == (nick in rows && rows[nick].kommt)
      && z.kommentar == (if c.kommentar != [] then c.kommentar
                         else if nick in rows then rows[nick].kommentar else [])
  {
  }

  /** Every request keeps the rows well keyed. */
  lemma HandleKeepsWellKeyed(s: State, req: Request, putFails: bool)
    requires WellKeyed(s.rows)
    ensures WellKeyed(Handle(s, req, putFails).next.rows)
  {
    if req.verb == "POST" && Validate(req.form).Accept? && !putFails {
      UpsertWellKeyed(s.rows, Validate(req.form).zusage);
    }
  }

  /**
   * Redirect-after-POST round trip: once a POST is accepted and stored, a GET
   * carrying the cookie it set shows exactly the entry that was stored.
   */
  lemma {:induction false} PostThenGet(s: State, form: map<string, GoString>)
    requires WellKeyed(s.rows)
    requires Validate(form).Accept?
    ensures var r := Post(s, form, false);
      WellKeyed(r.next.rows) && Get(r.next.rows, Some(CookieFor(Validate(form).zusage))) == [Render(Validate(form).zusage)]
  {
    var z := Validate(form).zusage;
    var rows := Upsert(s.rows, z);
    UpsertThenLookup(s.rows, z);
    Token.RoundTrip(Cookie(z.nick, z.kommentar));
    TrimSpaceIdempotent(FormValue(form, "nick"));
    assert TrimSpace(z.nick) == z.nick;
  }

  /**
   * Two accepted POSTs for the same trimmed nick, both stored: the second
   * overwrites the first in full.
   */
  lemma {:induction false} SecondPostOverwrites(s: State, form1: map<string, GoString>, form2: map<string, GoString>)
    requires WellKeyed(s.rows)
    requires Validate(form1).Accept? && Validate(form2).Accept?
    requires Validate(form1).zusage.nick == Validate(form2).zusage.nick
    ensures var rows := Post(Post(s, form1, false).next, form2, false).next.rows;
      WellKeyed(rows) && Lookup(rows, Validate(form2).zusage.nick) == Validate(form2).zusage
  {
    var z1, z2 := Validate(form1).zusage, Validate(form2).zusage;
    UpsertOverwrites(s.rows, z1, z2);
    UpsertThenLookup(s.rows, z2);
  }
}
