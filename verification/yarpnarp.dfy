/**
 * The handlers of the attendance form as methods on the server's state:
 * the stored rows, the log of Puts and hook runs, and a response writer per
 * request. Each method does its steps in the order of the Go handler and is
 * proved to agree with the rules of module Protocol.
 */
module YarpNarp {
  import opened Wrappers
  import opened GoStrings
  import opened Records
  import opened Store
  import Base64
  import CookieJson
  import P = Protocol

  /** `http.ResponseWriter`, reduced to the sequence of what is written to it. */
  class ResponseWriter {
    var writes: seq<P.Write>

    constructor ()
      ensures writes == []
    {
      writes := [];
    }

    /** `writeError`: a status code with a plain-text body. */
    method WriteError(code: int, body: string)
      modifies this
      ensures writes == old(writes) + [P.WriteError(code, body)]
    {
      writes := writes + [P.WriteError(code, body)];
    }

    /** `http.SetCookie`. */
    method SetCookie(name: string, value: GoString)
      modifies this
      ensures writes == old(writes) + [P.SetCookie(name, value)]
    {
      writes := writes + [P.SetCookie(name, value)];
    }

    /** `http.Redirect`. */
    method Redirect(location: string, code: int)
      modifies this
      ensures writes == old(writes) + [P.Redirect(location, code)]
    {
      writes := writes + [P.Redirect(location, code)];
    }

    /** `tpl.ExecuteTemplate(res, "yarpnarp.html", z)`. */
    method ExecuteTemplate(z: Zusage)
      modifies this
      ensures writes == old(writes) + [P.Render(z)]
    {
      writes := writes + [P.Render(z)];
    }
  }

  class Server {
    /** The attendance table. */
    var rows: Rows
    /** The Puts and hook runs made so far, in order. */
    var calls: seq<P.Call>

    ghost predicate Valid()
      reads this
    {
      WellKeyed(rows)
    }

    function State(): P.State
      reads this
    {
      P.State(rows, calls)
    }

    constructor (rows: Rows)
      requires WellKeyed(rows)
      ensures Valid() && this.rows == rows && calls == []
    {
      this.rows := rows;
      calls := [];
    }

    /** `GetZusage`: a stored row, or the entry holding only the nick. */
    method GetZusage(nick: GoString) returns (z: Zusage)
      requires Valid()
      ensures z.nick == nick
      ensures nick in rows ==> z == rows[nick]
      ensures nick !in rows ==> z == Zusage(nick, false, [], false)
    {
      z := Lookup(rows, nick);
    }

    /** `zusage.Put()`; `fails` is the database's answer. A failed Put changes nothing. */
    method Put(z: Zusage, fails: bool) returns (err: bool)
      requires Valid() && z.hasKommt
      modifies this`rows, this`calls
      ensures Valid()
      ensures err == fails
      ensures rows == if fails then old(rows) else Upsert(old(rows), z)
      ensures calls == old(calls) + [P.PutCall(z, fails)]
    {
      err := fails;
      calls := calls + [P.PutCall(z, fails)];
      if !fails {
        UpsertWellKeyed(rows, z);
        rows := Upsert(rows, z);
      }
    }

    /** `RunHook`: records the run; the external command itself is not modelled. */
    method RunHook()
      modifies this`calls
      ensures calls == old(calls) + [P.HookCall]
    {
      calls := calls + [P.HookCall];
    }

    /** `handlePost`: the field derivations and the two checks. */
    method HandlePost(res: ResponseWriter, form: map<string, GoString>, putFails: bool)
      requires Valid()
      modifies this, res
      ensures Valid()
      ensures State() == P.Post(old(State()), form, putFails).next
      ensures res.writes == old(res.writes) + P.Post(old(State()), form, putFails).writes
    {
      ghost var before := State();
      var nick := TrimSpace(P.FormValue(form, "nick"));
      var kommt := P.FormValue(form, "kommt") == P.Yarp;
      var kommentar := P.FormValue(form, "kommentar");

      if P.FormValue(form, "captcha") != P.CaptchaAnswer {
        P.BadCaptchaRejected(before, form, putFails);
        res.WriteError(P.BadRequest, P.CaptchaMessage);
        return;
      }

      if nick == [] {
        P.BlankNickRejected(before, form, putFails);
        res.WriteError(P.BadRequest, P.NickMessage);
        return;
      }

      var zusage := Zusage(nick, kommt, kommentar, true);
      P.AcceptedPost(before, form, putFails);
      Commit(res, zusage, putFails);
      assert State() == P.Commit(before, zusage, putFails).next;
    }

    /**
     * The rest of `handlePost`: Put, a 400 if it failed, the hook whatever it
     * answered, then the cookie and the redirect.
     */
    method Commit(res: ResponseWriter, zusage: Zusage, putFails: bool)
      requires Valid() && zusage.hasKommt
      modifies this, res
      ensures Valid()
      ensures rows == if putFails then old(rows) else Upsert(old(rows), zusage)
      ensures calls == old(calls) + [P.PutCall(zusage, putFails), P.HookCall]
      ensures res.writes == old(res.writes) + P.CommitWrites(zusage, putFails)
    {
      ghost var written, made := res.writes, calls;
      var err := Put(zusage, putFails);
      if err {
        res.WriteError(P.BadRequest, P.PutMessage);
      }

      RunHook();
      assert (made + [P.PutCall(zusage, putFails)]) + [P.HookCall] == made + [P.PutCall(zusage, putFails), P.HookCall];

      IssueCookie(res, zusage);
      P.CommitWritesOnFailure(zusage);
      if putFails {
        assert (written + [P.WriteError(P.BadRequest, P.PutMessage)]) + P.CommitWrites(zusage, false)
            == written + ([P.WriteError(P.BadRequest, P.PutMessage)] + P.CommitWrites(zusage, false));
      }
    }

    /** The end of `handlePost`: the identity cookie for the entry, then the redirect. */
    static method IssueCookie(res: ResponseWriter, zusage: Zusage)
      modifies res
      ensures res.writes == old(res.writes) + P.CommitWrites(zusage, false)
    {
      var cookie := CookieJson.Marshal(Cookie(zusage.nick, zusage.kommentar));
      var c := Base64.Encode(cookie);
      res.SetCookie(P.CookieName, c);

      res.Redirect(P.RedirectTarget, P.SeeOther);
    }

    /** `handleGet`: builds the shown entry step by step, as the Go code does. */
    method HandleGet(res: ResponseWriter, cookie: Option<GoString>)
      requires Valid()
      modifies res
      ensures res.writes == old(res.writes) + P.Get(rows, cookie)
    {
      var z := ZeroZusage;

      if cookie.Some? {
        var keks := Base64.Decode(cookie.value);
        if keks.None? {
          res.WriteError(P.InternalServerError, P.CookieMessage);
          return;
        }

        var c := CookieJson.Unmarshal(keks.value);
        if c.None? {
          res.WriteError(P.InternalServerError, P.CookieMessage);
          return;
        }

        z := z.(nick := TrimSpace(c.value.nick));
        z := GetZusage(z.nick);
        if c.value.kommentar != [] {
          z := z.(kommentar := c.value.kommentar);
        }
      }

      res.ExecuteTemplate(z);
    }

    /** `YarpNarpHandler`: dispatch on the request method. */
    method YarpNarpHandler(res: ResponseWriter, req: P.Request, putFails: bool)
      requires Valid()
      modifies this, res
      ensures Valid()
      ensures State() == P.Handle(old(State()), req, putFails).next
      ensures res.writes == old(res.writes) + P.Handle(old(State()), req, putFails).writes
    {
      if req.verb == "POST" {
        HandlePost(res, req.form, putFails);
        return;
      }

      if req.verb == "GET" {
        HandleGet(res, req.cookie);
        return;
      }

      res.WriteError(P.MethodNotAllowed, "");
    }
  }
}
