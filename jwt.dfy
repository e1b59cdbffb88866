/** interceptor/jwt/interceptor.go: the JWT handler. The extractors are tried in order
    until one succeeds, the token is parsed, and either the parsed token is stored in the
    user context and the chain goes on, or the answer is 401. */
module Jwt {
  import opened Wrappers
  import opened Web
  import Common

  /** What one extractor returns for a request: the auth string and an error (None is nil). */
  datatype Extraction = Extraction(auth: string, err: Option<Error>)

  /** What ParseTokenFunc returns. */
  datatype Parsed = Token(raw: string) | ParseFailed(err: Error)

  datatype Config = Config(entryName: string, extractors: seq<Request -> Extraction>, parseToken: (string, Request) -> Parsed)

  /** The pair (auth, err) the extractor loop leaves behind: the first success, otherwise
      the result of the last extractor, and ("", nil) when there is none. */
  function Extract(exs: seq<Request -> Extraction>, req: Request): Extraction
    decreases |exs|
  {
    if |exs| == 0 then Extraction("", None)
    else if exs[0](req).err.None? || |exs| == 1 then exs[0](req)
    else Extract(exs[1..], req)
  }

  /** The extractor loop, which stops at the first extractor that returns no error. */
  method RunExtractors(exs: seq<Request -> Extraction>, req: Request) returns (auth: string, err: Option<Error>)
    ensures Extraction(auth, err) == Extract(exs, req)
  {
    auth, err := "", None;
    var i := 0;
    while i < |exs|
      invariant 0 <= i <= |exs|
      invariant i == 0 ==> auth == "" && err == None
      invariant i > 0 ==> Extraction(auth, err) == exs[i - 1](req)
      invariant forall j :: 0 <= j < i ==> exs[j](req).err.Some?
    {
      var r := exs[i](req);
      auth, err := r.auth, r.err;
      if err.None? {
        FirstSuccessWins(exs, req, i);
        return;
      }
      i := i + 1;
    }
    if i > 0 {
      AllFail(exs, req);
    }
  }

  /** The first extractor that succeeds supplies the auth string. */
  lemma {:induction false} FirstSuccessWins(exs: seq<Request -> Extraction>, req: Request, i: nat)
    requires i < |exs| && exs[i](req).err.None?
    requires forall j :: 0 <= j < i ==> exs[j](req).err.Some?
    ensures Extract(exs, req) == exs[i](req)
    decreases i
  {
    if i > 0 {
      FirstSuccessWins(exs[1..], req, i - 1);
    }
  }

  /** When every extractor fails, the last one's error is reported. */
  lemma {:induction false} AllFail(exs: seq<Request -> Extraction>, req: Request)
    requires |exs| > 0
    requires forall j :: 0 <= j < |exs| ==> exs[j](req).err.Some?
    ensures Extract(exs, req) == exs[|exs| - 1](req)
    ensures Extract(exs, req).err.Some?
    decreases |exs|
  {
    if |exs| > 1 {
      AllFail(exs[1..], req);
    }
  }

  /** The loop reports an error exactly when there are extractors and all of them fail. */
  lemma {:induction false} ExtractErrIff(exs: seq<Request -> Extraction>, req: Request)
    ensures Extract(exs, req).err.Some? <==> |exs| > 0 && forall j :: 0 <= j < |exs| ==> exs[j](req).err.Some?
    decreases |exs|
  {
    if |exs| > 1 {
      ExtractErrIff(exs[1..], req);
      if Extract(exs, req).err.Some? {
        forall j | 0 <= j < |exs| ensures exs[j](req).err.Some? {
          if j > 0 { assert exs[1..][j - 1] == exs[j]; }
        }
      } else if exs[0](req).err.Some? {
        var j :| 0 <= j < |exs[1..]| && exs[1..][j](req).err.None?;
        assert exs[j + 1](req).err.None?;
      }
    }
  }

  /** What the handler does: the JSON body for a rejection, the token stored in the user
      context, and what it returns. */
  datatype Outcome = Outcome(body: Option<ErrorBody>, stored: Option<string>, flow: Flow)

  const Unauthorized := Stop(Some(StatusError(StatusUnauthorized)))

  function Decide(cfg: Config, req: Request, skip: bool): Outcome
  {
    if skip then Outcome(None, None, CallNext)
    else
      var ex := Extract(cfg.extractors, req);
      if ex.err.Some? then
        Outcome(Some(ErrorBody(StatusUnauthorized, "invalid or expired jwt", [ex.err])), None, Unauthorized)
      else
        match cfg.parseToken(ex.auth, req)
        case ParseFailed(e) => Outcome(Some(ErrorBody(StatusUnauthorized, "invalid or expired jwt", [Some(e)])), None, Unauthorized)
        case Token(t) => Outcome(None, Some(t), CallNext)
  }

  /** The handler: records the entry name, runs the extractor loop, parses, and stores the
      token under the JWT key before calling the chain. */
  method Handle(cfg: Config, ctx: Ctx, skip: bool) returns (flow: Flow)
    modifies ctx`body, ctx`userValues
    ensures var o := Decide(cfg, ctx.request, skip);
      && flow == o.flow
      && ctx.body == (if o.body.Some? then o.body else old(ctx.body))
      && ctx.userValues == (var u := old(ctx.userValues)[Common.EntryNameKey := Str(cfg.entryName)];
                            if o.stored.Some? then u[Common.JwtTokenKey := JwtToken(o.stored.value)] else u)
  {
    ctx.SetUserValue(Common.EntryNameKey, Str(cfg.entryName));
    if skip {
      return CallNext;
    }
    var auth, err := RunExtractors(cfg.extractors, ctx.request);
    if err.Some? {
      ctx.Json(ErrorBody(StatusUnauthorized, "invalid or expired jwt", [err]));
      return Unauthorized;
    }
    var parsed := cfg.parseToken(auth, ctx.request);
    match parsed {
      case ParseFailed(e) =>
        ctx.Json(ErrorBody(StatusUnauthorized, "invalid or expired jwt", [Some(e)]));
        return Unauthorized;
      case Token(t) =>
        ctx.SetUserValue(Common.JwtTokenKey, JwtToken(t));
        return CallNext;
    }
  }

  /** The chain is called exactly when the request is skipped or an extractor succeeds (or
      there is none) and the token parses; a parsed token is then stored. Every other
      request gets 401 "invalid or expired jwt" with the error as the one detail. */
  lemma Outcomes(cfg: Config, req: Request, skip: bool)
    ensures var o := Decide(cfg, req, skip);
      var ex := Extract(cfg.extractors, req);
      && (o.flow == CallNext <==> skip || (ex.err.None? && cfg.parseToken(ex.auth, req).Token?))
      && (o.flow != CallNext ==>
            && o.flow == Unauthorized && o.stored == None
            && o.body.Some? && o.body.value.code == StatusUnauthorized && o.body.value.message == "invalid or expired jwt"
            && |o.body.value.details| == 1 && o.body.value.details[0].Some?)
      && (!skip && o.flow == CallNext ==> o.stored == Some(cfg.parseToken(ex.auth, req).raw) && o.body == None)
      && (skip ==> o == Outcome(None, None, CallNext))
  {
  }

  /** With no extractor the empty auth string goes to the parser. */
  lemma NoExtractors(cfg: Config, req: Request)
    requires cfg.extractors == []
    ensures Decide(cfg, req, false) ==
      match cfg.parseToken("", req)
      case ParseFailed(e) => Outcome(Some(ErrorBody(StatusUnauthorized, "invalid or expired jwt", [Some(e)])), None, Unauthorized)
      case Token(t) => Outcome(None, Some(t), CallNext)
  {
  }
}
