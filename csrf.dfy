/** interceptor/csrf/interceptor.go: the CSRF handler. It chooses the server token (the
    existing cookie, or a fresh random one), validates the client token on every method
    that is not safe, and on success writes the CSRF cookie, the token header and
    `Vary: Cookie`. */
module Csrf {
  import opened Wrappers
  import opened Web
  import Common

  const HeaderVary := "Vary"
  const HeaderCookie := "Cookie"

  /** time.Second in nanoseconds. */
  const Second := 1_000_000_000

  /** The values of net/http's SameSite enumeration; any other int is possible too. */
  const SameSiteDefaultMode := 1
  const SameSiteLaxMode := 2
  const SameSiteStrictMode := 3
  const SameSiteNoneMode := 4

  /** The option set fields the handler reads. */
  datatype Config = Config(
    entryName: string,
    tokenLength: int,
    cookieName: string,
    cookieDomain: string,
    cookiePath: string,
    cookieMaxAge: int,
    cookieHttpOnly: bool,
    cookieSameSite: int)

  /** What the client-token extractor returns. */
  datatype Extracted = ClientToken(token: string) | ExtractFailed(err: Error)

  /** Everything the environment contributes to one request: the skipper's answer, the
      random-string generator, the extractor's result, the token comparison and the clock
      (nanoseconds since the epoch). */
  datatype Env = Env(
    skip: bool,
    randString: int -> string,
    extracted: Extracted,
    isValidToken: (string, string) -> bool,
    now: int)

  /** What the handler does: the cookie it sets, the JSON body it writes, its response-header
      writes and what it returns. */
  datatype Decision = Decision(cookie: Option<Cookie>, body: Option<ErrorBody>, ops: seq<HeaderOp>, flow: Flow)

  /** GET, HEAD, OPTIONS and TRACE are never validated. */
  predicate IsSafe(verb: string)
  {
    verb == MethodGet || verb == MethodHead || verb == MethodOptions || verb == MethodTrace
  }

  /** The server-side token: the existing cookie when non-empty, else RandString(TokenLength). */
  function ServerToken(cfg: Config, req: Request, randString: int -> string): (token: string)
    ensures CookieValue(req, cfg.cookieName) != "" ==> token == CookieValue(req, cfg.cookieName)
    ensures CookieValue(req, cfg.cookieName) == "" ==> token == randString(cfg.tokenLength)
  {
    var k := CookieValue(req, cfg.cookieName);
    if |k| < 1 then randString(cfg.tokenLength) else k
  }

  /** fiber's SameSite strings for the three non-default modes; "" leaves it unset. */
  function SameSiteString(mode: int): (r: string)
  {
    if mode == SameSiteDefaultMode then ""
    else if mode == SameSiteNoneMode then "none"
    else if mode == SameSiteLaxMode then "lax"
    else if mode == SameSiteStrictMode then "strict"
    else ""
  }

  /** The CSRF cookie, field by field. */
  function BuildCookie(cfg: Config, token: string, now: int): Cookie
  {
    var c := Cookie(cfg.cookieName, token, "", "", "", 0, false, false);
    var c := if cfg.cookiePath != "" then c.(path := cfg.cookiePath) else c;
    var c := if cfg.cookieDomain != "" then c.(domain := cfg.cookieDomain) else c;
    var c := c.(sameSite := SameSiteString(cfg.cookieSameSite));
    c.(expires := now + cfg.cookieMaxAge * Second,
       secure := cfg.cookieSameSite == SameSiteNoneMode,
       httpOnly := cfg.cookieHttpOnly)
  }

  function Decide(cfg: Config, req: Request, env: Env): Decision
  {
    if env.skip then Decision(None, None, [], CallNext)
    else
      var token := ServerToken(cfg, req, env.randString);
      if !IsSafe(req.verb) && env.extracted.ExtractFailed? then
        Decision(None, Some(ErrorBody(StatusBadRequest, "failed to extract client token", [Some(env.extracted.err)])),
                 [], Stop(Some(StatusError(StatusBadRequest))))
      else if !IsSafe(req.verb) && !env.isValidToken(token, env.extracted.token) then
        Decision(None, Some(ErrorBody(StatusForbidden, "invalid csrf token", [None])),
                 [], Stop(Some(StatusError(StatusForbidden))))
      else
        Decision(Some(BuildCookie(cfg, token, env.now)), None,
                 [Set(Common.CsrfTokenKey, token), Add(HeaderVary, HeaderCookie)], CallNext)
  }

  /** Builds and sets the cookie field by field, stores the token in the response header
      and adds `Vary: Cookie`. */
  method Approve(cfg: Config, ctx: Ctx, token: string, now: int)
    modifies ctx`headers, ctx`cookies
    ensures ctx.cookies == old(ctx.cookies) + [BuildCookie(cfg, token, now)]
    ensures ctx.headers == Apply(old(ctx.headers), [Set(Common.CsrfTokenKey, token), Add(HeaderVary, HeaderCookie)])
  {
    var cookie := Cookie(cfg.cookieName, token, "", "", "", 0, false, false);
    if cfg.cookiePath != "" {
      cookie := cookie.(path := cfg.cookiePath);
    }
    if cfg.cookieDomain != "" {
      cookie := cookie.(domain := cfg.cookieDomain);
    }
    if cfg.cookieSameSite != SameSiteDefaultMode {
      if cfg.cookieSameSite == SameSiteNoneMode {
        cookie := cookie.(sameSite := "none");
      } else if cfg.cookieSameSite == SameSiteLaxMode {
        cookie := cookie.(sameSite := "lax");
      } else if cfg.cookieSameSite == SameSiteStrictMode {
        cookie := cookie.(sameSite := "strict");
      }
    }
    cookie := cookie.(expires := now + cfg.cookieMaxAge * Second);
    cookie := cookie.(secure := cfg.cookieSameSite == SameSiteNoneMode);
    cookie := cookie.(httpOnly := cfg.cookieHttpOnly);
    ctx.SetCookie(cookie);
    ghost var h0 := ctx.headers;
    ctx.SetHeader(Common.CsrfTokenKey, token);
    assert Apply(h0, [Set(Common.CsrfTokenKey, token)]) == ApplyOp(h0, Set(Common.CsrfTokenKey, token));
    ctx.AddHeader(HeaderVary, HeaderCookie);
    ApplySnoc(h0, [Set(Common.CsrfTokenKey, token)], Add(HeaderVary, HeaderCookie));
    assert [Set(Common.CsrfTokenKey, token)] + [Add(HeaderVary, HeaderCookie)]
        == [Set(Common.CsrfTokenKey, token), Add(HeaderVary, HeaderCookie)];
  }

  /** The handler, writing the context step by step. */
  method Handle(cfg: Config, ctx: Ctx, env: Env) returns (flow: Flow)
    modifies ctx`headers, ctx`body, ctx`cookies, ctx`userValues
    ensures var d := Decide(cfg, ctx.request, env);
      && flow == d.flow
      && ctx.headers == Apply(old(ctx.headers), d.ops)
      && ctx.body == (if d.body.Some? then d.body else old(ctx.body))
      && ctx.cookies == old(ctx.cookies) + (if d.cookie.Some? then [d.cookie.value] else [])
    ensures ctx.userValues == old(ctx.userValues)[Common.EntryNameKey := Str(cfg.entryName)]
  {
    ctx.SetUserValue(Common.EntryNameKey, Str(cfg.entryName));
    if env.skip {
      return CallNext;
    }
    var k := CookieValue(ctx.request, cfg.cookieName);
    var token := "";
    if |k| < 1 {
      token := env.randString(cfg.tokenLength);
    } else {
      token := k;
    }
    if !IsSafe(ctx.request.verb) {
      match env.extracted {
        case ExtractFailed(err) =>
          ctx.Json(ErrorBody(StatusBadRequest, "failed to extract client token", [Some(err)]));
          return Stop(Some(StatusError(StatusBadRequest)));
        case ClientToken(clientToken) =>
          if !env.isValidToken(token, clientToken) {
            ctx.Json(ErrorBody(StatusForbidden, "invalid csrf token", [None]));
            return Stop(Some(StatusError(StatusForbidden)));
          }
      }
    }
    Approve(cfg, ctx, token, env.now);
    return CallNext;
  }

  /** A skipped request gets no cookie, no body and no header, and goes on. */
  lemma Skipped(cfg: Config, req: Request, env: Env)
    requires env.skip
    ensures Decide(cfg, req, env) == Decision(None, None, [], CallNext)
  {
  }

  /** Safe methods are never validated: neither the extractor's result nor the token
      comparison changes the outcome, and the request always proceeds with the cookie. */
  lemma SafeMethodsExempt(cfg: Config, req: Request, env: Env, extracted: Extracted, isValidToken: (string, string) -> bool)
    requires IsSafe(req.verb) && !env.skip
    ensures Decide(cfg, req, env) == Decide(cfg, req, env.(extracted := extracted, isValidToken := isValidToken))
    ensures Decide(cfg, req, env).flow == CallNext && Decide(cfg, req, env).cookie.Some?
  {
  }

  /** A failed extraction on an unsafe method: 400 with the extractor's error as the one
      detail, ErrBadRequest returned, no cookie and no header. */
  lemma ExtractionFails(cfg: Config, req: Request, env: Env)
    requires !env.skip && !IsSafe(req.verb) && env.extracted.ExtractFailed?
    ensures var d := Decide(cfg, req, env);
      && d.flow == Stop(Some(StatusError(StatusBadRequest)))
      && d.body == Some(ErrorBody(StatusBadRequest, "failed to extract client token", [Some(env.extracted.err)]))
      && d.cookie == None && d.ops == []
  {
  }

  /** A client token the comparison rejects: 403, ErrForbidden returned, nothing else. */
  lemma TokenMismatch(cfg: Config, req: Request, env: Env)
    requires !env.skip && !IsSafe(req.verb) && env.extracted.ClientToken?
    requires !env.isValidToken(ServerToken(cfg, req, env.randString), env.extracted.token)
    ensures var d := Decide(cfg, req, env);
      && d.flow == Stop(Some(StatusError(StatusForbidden)))
      && d.body.Some? && d.body.value.code == StatusForbidden && d.body.value.message == "invalid csrf token"
      && d.cookie == None && d.ops == []
  {
  }

  /** The request proceeds exactly when it is skipped, safe, or carries a token the
      comparison accepts; then the cookie carries the server token, the token goes to the
      response header and Vary gains Cookie. */
  lemma Proceeds(cfg: Config, req: Request, env: Env, h: Headers)
    requires !env.skip
    ensures var d := Decide(cfg, req, env);
      var token := ServerToken(cfg, req, env.randString);
      && (d.flow == CallNext <==>
            IsSafe(req.verb) || (env.extracted.ClientToken? && env.isValidToken(token, env.extracted.token)))
      && (d.flow == CallNext ==>
            && d.cookie == Some(BuildCookie(cfg, token, env.now))
            && d.body == None
            && Values(Apply(h, d.ops), Common.CsrfTokenKey) == [token]
            && Values(Apply(h, d.ops), HeaderVary) == Values(h, HeaderVary) + [HeaderCookie])
  {
    var d := Decide(cfg, req, env);
    if d.flow == CallNext {
      var token := ServerToken(cfg, req, env.randString);
      var ops := [Set(Common.CsrfTokenKey, token), Add(HeaderVary, HeaderCookie)];
      assert ops == [Set(Common.CsrfTokenKey, token)] + [Add(HeaderVary, HeaderCookie)];
      ApplySnoc(h, [Set(Common.CsrfTokenKey, token)], Add(HeaderVary, HeaderCookie));
      assert Apply(h, [Set(Common.CsrfTokenKey, token)]) == ApplyOp(h, Set(Common.CsrfTokenKey, token));
    }
  }

  /** The cookie: configured name, the token as value, path and domain only when
      configured, SameSite None/Lax/Strict as "none"/"lax"/"strict" and any other mode
      unset, Secure exactly for SameSite=None, HttpOnly as configured, and an expiry
      MaxAge seconds after now. */
  lemma CookieFields(cfg: Config, token: string, now: int)
    ensures var c := BuildCookie(cfg, token, now);
      && c.name == cfg.cookieName && c.value == token
      && c.path == cfg.cookiePath && c.domain == cfg.cookieDomain
      && (c.sameSite == "none" <==> cfg.cookieSameSite == SameSiteNoneMode)
      && (c.sameSite == "lax" <==> cfg.cookieSameSite == SameSiteLaxMode)
      && (c.sameSite == "strict" <==> cfg.cookieSameSite == SameSiteStrictMode)
      && (c.sameSite == "" <==> cfg.cookieSameSite !in {SameSiteNoneMode, SameSiteLaxMode, SameSiteStrictMode})
      && (c.secure <==> c.sameSite == "none")
      && c.httpOnly == cfg.cookieHttpOnly
      && c.expires == now + cfg.cookieMaxAge * Second
  {
  }
}
