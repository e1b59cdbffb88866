/** interceptor/auth/interceptor.go: the auth handler. `before` checks the Authorization
    header, else the X-API-Key header, else reports which schemes are on offer; every
    rejection answers 401 with a JSON error, and the handler then stops the chain. */
module Auth {
  import opened Wrappers
  import opened Web
  import Strings
  import Common

  const TypeBasic := "Basic"
  const TypeApiKey := "X-API-Key"
  const HeaderWwwAuthenticate := "WWW-Authenticate"

  /** The option set fields `before` reads: the realm, the basic accounts and the API keys
      that are configured. */
  datatype Config = Config(entryName: string, basicRealm: string, basicAccounts: seq<string>, apiKeys: seq<string>)

  /** The option set's ShouldAuth answer for this request, and its credential check. */
  datatype Env = Env(shouldAuth: bool, authorized: (string, string) -> bool)

  /** What `before` does: the status it sets, its response-header writes, the JSON body and
      the error it returns. */
  datatype Outcome = Outcome(status: Option<int>, ops: seq<HeaderOp>, body: Option<ErrorBody>, err: Option<Error>)

  const Pass := Outcome(None, [], None, None)

  /** The Basic challenge of section 2 of RFC 7617: `Basic realm="<realm>"`. */
  function Challenge(realm: string): string
  {
    TypeBasic + " realm=\"" + realm + "\""
  }

  /** A 401 rejection with the given message and header writes. */
  function Reject(message: string, ops: seq<HeaderOp>): Outcome
  {
    Outcome(Some(StatusUnauthorized), ops, Some(ErrorBody(StatusUnauthorized, message, [])), Some(StatusError(StatusUnauthorized)))
  }

  /** The schemes listed when no credential header is present. */
  function OnOffer(cfg: Config): seq<string>
  {
    (if |cfg.basicAccounts| > 0 then ["Basic Auth"] else []) + (if |cfg.apiKeys| > 0 then ["X-API-Key"] else [])
  }

  function MissingMessage(cfg: Config): string
  {
    "Missing authorization, provide one of bellow auth header:[" + Strings.Join(OnOffer(cfg), ",") + "]"
  }

  function Before(cfg: Config, req: Request, env: Env): Outcome
  {
    var authHeader := Peek(req, Common.AuthorizationHeaderKey);
    var apiKeyHeader := Peek(req, Common.ApiKeyHeaderKey);
    if !env.shouldAuth then Pass
    else if |authHeader| > 0 then
      var tokens := Strings.SplitFirstSpace(authHeader);
      if |tokens| != 2 then Reject("Invalid Basic Auth format", [])
      else if !env.authorized(tokens[0], tokens[1]) then
        Reject("Invalid credential", if tokens[0] == TypeBasic then [Set(HeaderWwwAuthenticate, Challenge(cfg.basicRealm))] else [])
      else Pass
    else if |apiKeyHeader| > 0 then
      if !env.authorized(TypeApiKey, apiKeyHeader) then Reject("Invalid X-API-Key", []) else Pass
    else
      Reject(MissingMessage(cfg), if |cfg.basicAccounts| > 0 then [Set(HeaderWwwAuthenticate, Challenge(cfg.basicRealm))] else [])
  }

  /** The handler returns nil without calling the chain once `before` reported an error. */
  function FlowOf(o: Outcome): Flow
  {
    if o.err.Some? then Stop(None) else CallNext
  }

  /** `before`, writing the response step by step. */
  method RunBefore(cfg: Config, ctx: Ctx, env: Env) returns (err: Option<Error>)
    modifies ctx`status, ctx`headers, ctx`body
    ensures var o := Before(cfg, ctx.request, env);
      && err == o.err
      && ctx.status == (if o.status.Some? then o.status.value else old(ctx.status))
      && ctx.headers == Apply(old(ctx.headers), o.ops)
      && ctx.body == (if o.body.Some? then o.body else old(ctx.body))
  {
    if !env.shouldAuth {
      return None;
    }
    var authHeader := Peek(ctx.request, Common.AuthorizationHeaderKey);
    var apiKeyHeader := Peek(ctx.request, Common.ApiKeyHeaderKey);
    ghost var h0 := ctx.headers;
    if |authHeader| > 0 {
      var tokens := Strings.SplitFirstSpace(authHeader);
      if |tokens| != 2 {
        ctx.SetStatus(StatusUnauthorized);
        ctx.Json(ErrorBody(StatusUnauthorized, "Invalid Basic Auth format", []));
        return Some(StatusError(StatusUnauthorized));
      }
      if !env.authorized(tokens[0], tokens[1]) {
        if tokens[0] == TypeBasic {
          ctx.SetHeader(HeaderWwwAuthenticate, Challenge(cfg.basicRealm));
          assert Apply(h0, [Set(HeaderWwwAuthenticate, Challenge(cfg.basicRealm))])
              == ApplyOp(h0, Set(HeaderWwwAuthenticate, Challenge(cfg.basicRealm)));
        }
        ctx.SetStatus(StatusUnauthorized);
        ctx.Json(ErrorBody(StatusUnauthorized, "Invalid credential", []));
        return Some(StatusError(StatusUnauthorized));
      }
    } else if |apiKeyHeader| > 0 {
      if !env.authorized(TypeApiKey, apiKeyHeader) {
        ctx.SetStatus(StatusUnauthorized);
        ctx.Json(ErrorBody(StatusUnauthorized, "Invalid X-API-Key", []));
        return Some(StatusError(StatusUnauthorized));
      }
    } else {
      var authHeaders: seq<string> := [];
      if |cfg.basicAccounts| > 0 {
        ctx.SetHeader(HeaderWwwAuthenticate, Challenge(cfg.basicRealm));
        assert Apply(h0, [Set(HeaderWwwAuthenticate, Challenge(cfg.basicRealm))])
            == ApplyOp(h0, Set(HeaderWwwAuthenticate, Challenge(cfg.basicRealm)));
        authHeaders := authHeaders + ["Basic Auth"];
      }
      if |cfg.apiKeys| > 0 {
        authHeaders := authHeaders + ["X-API-Key"];
      }
      var errMsg := "Missing authorization, provide one of bellow auth header:[" + Strings.Join(authHeaders, ",") + "]";
      ctx.SetStatus(StatusUnauthorized);
      ctx.Json(ErrorBody(StatusUnauthorized, errMsg, []));
      return Some(StatusError(StatusUnauthorized));
    }
    return None;
  }

  /** The handler: records the entry name, runs `before`, and calls the chain only when
      `before` found nothing wrong. */
  method Handle(cfg: Config, ctx: Ctx, env: Env) returns (flow: Flow)
    modifies ctx`status, ctx`headers, ctx`body, ctx`userValues
    ensures var o := Before(cfg, ctx.request, env);
      && flow == FlowOf(o)
      && ctx.status == (if o.status.Some? then o.status.value else old(ctx.status))
      && ctx.headers == Apply(old(ctx.headers), o.ops)
      && ctx.body == (if o.body.Some? then o.body else old(ctx.body))
    ensures ctx.userValues == old(ctx.userValues)[Common.EntryNameKey := Str(cfg.entryName)]
  {
    ctx.SetUserValue(Common.EntryNameKey, Str(cfg.entryName));
    var err := RunBefore(cfg, ctx, env);
    if err.Some? {
      return Stop(None);
    }
    return CallNext;
  }

  /** The request reaches the chain exactly when auth is not required for it, or the
      Authorization header is well formed and accepted, or it is absent and the API key is
      present and accepted. Otherwise the answer is 401 with a JSON error. */
  lemma PassesIff(cfg: Config, req: Request, env: Env)
    ensures var o := Before(cfg, req, env);
      var authHeader := Peek(req, Common.AuthorizationHeaderKey);
      var apiKeyHeader := Peek(req, Common.ApiKeyHeaderKey);
      && (FlowOf(o) == CallNext <==>
            || !env.shouldAuth
            || (authHeader != "" && ' ' in authHeader &&
                env.authorized(Strings.SplitFirstSpace(authHeader)[0], Strings.SplitFirstSpace(authHeader)[1]))
            || (authHeader == "" && apiKeyHeader != "" && env.authorized(TypeApiKey, apiKeyHeader)))
      && (FlowOf(o) == CallNext ==> o == Pass)
      && (FlowOf(o) != CallNext ==>
            FlowOf(o) == Stop(None) && o.status == Some(StatusUnauthorized) && o.body.Some? && o.body.value.code == StatusUnauthorized)
  {
  }

  /** A non-empty Authorization header decides alone: the X-API-Key header is not read. */
  lemma AuthorizationFirst(cfg: Config, req: Request, env: Env, apiKey: string)
    requires Peek(req, Common.AuthorizationHeaderKey) != ""
    ensures Before(cfg, req, env) == Before(cfg, req.(headers := req.headers[Common.ApiKeyHeaderKey := apiKey]), env)
  {
    var req2 := req.(headers := req.headers[Common.ApiKeyHeaderKey := apiKey]);
    assert Common.ApiKeyHeaderKey != Common.AuthorizationHeaderKey by {
      assert Common.ApiKeyHeaderKey[0] != Common.AuthorizationHeaderKey[0];
    }
    assert Peek(req2, Common.AuthorizationHeaderKey) == Peek(req, Common.AuthorizationHeaderKey);
  }

  /** Authorization without a space: "Invalid Basic Auth format", no challenge. */
  lemma BadFormat(cfg: Config, req: Request, env: Env)
    requires env.shouldAuth
    requires Peek(req, Common.AuthorizationHeaderKey) != "" && ' ' !in Peek(req, Common.AuthorizationHeaderKey)
    ensures Before(cfg, req, env) == Reject("Invalid Basic Auth format", [])
  {
  }

  /** Rejected credentials: "Invalid credential", with the Basic challenge exactly when the
      scheme token is Basic. */
  lemma RejectedCredential(cfg: Config, req: Request, env: Env, scheme: string, credential: string)
    requires env.shouldAuth
    requires Peek(req, Common.AuthorizationHeaderKey) == scheme + " " + credential && ' ' !in scheme
    requires !env.authorized(scheme, credential)
    ensures var o := Before(cfg, req, env);
      && o.body == Some(ErrorBody(StatusUnauthorized, "Invalid credential", []))
      && (Values(Apply(map[], o.ops), HeaderWwwAuthenticate) ==
            if scheme == TypeBasic then [Challenge(cfg.basicRealm)] else [])
  {
    var s := scheme + " " + credential;
    assert s[|scheme|] == ' ';
    var tokens := Strings.SplitFirstSpace(s);
    assert ' ' in s;
    SplitAt(scheme, credential, tokens);
    var o := Before(cfg, req, env);
    if scheme == TypeBasic {
      assert Apply(map[], o.ops) == ApplyOp(map[], o.ops[0]);
    }
  }

  /** The parts SplitN gives back for `scheme + " " + credential` when the scheme holds no space. */
  lemma SplitAt(scheme: string, credential: string, tokens: seq<string>)
    requires ' ' !in scheme
    requires tokens == Strings.SplitFirstSpace(scheme + " " + credential)
    ensures |tokens| == 2 && tokens[0] == scheme && tokens[1] == credential
  {
    var s := scheme + " " + credential;
    assert s[|scheme|] == ' ';
    var i := Strings.IndexOf(s, ' ');
    assert s[..i] == scheme;
    assert s[i + 1..] == credential;
  }

  /** A rejected API key, with no Authorization header: "Invalid X-API-Key". */
  lemma RejectedApiKey(cfg: Config, req: Request, env: Env)
    requires env.shouldAuth
    requires Peek(req, Common.AuthorizationHeaderKey) == "" && Peek(req, Common.ApiKeyHeaderKey) != ""
    requires !env.authorized(TypeApiKey, Peek(req, Common.ApiKeyHeaderKey))
    ensures Before(cfg, req, env) == Reject("Invalid X-API-Key", [])
  {
  }

  /** Neither header: 401 listing "Basic Auth" when basic accounts exist (with the challenge)
      and then "X-API-Key" when an API key is configured, comma-joined in brackets. */
  lemma Missing(cfg: Config, req: Request, env: Env)
    requires env.shouldAuth
    requires Peek(req, Common.AuthorizationHeaderKey) == "" && Peek(req, Common.ApiKeyHeaderKey) == ""
    ensures var o := Before(cfg, req, env);
      var basic := |cfg.basicAccounts| > 0;
      var apiKey := |cfg.apiKeys| > 0;
      var listed := if basic && apiKey then "Basic Auth,X-API-Key" else if basic then "Basic Auth"
                    else if apiKey then "X-API-Key" else "";
      && o.status == Some(StatusUnauthorized)
      && o.body == Some(ErrorBody(StatusUnauthorized, "Missing authorization, provide one of bellow auth header:[" + listed + "]", []))
      && (Values(Apply(map[], o.ops), HeaderWwwAuthenticate) == if basic then [Challenge(cfg.basicRealm)] else [])
  {
    var o := Before(cfg, req, env);
    if |cfg.basicAccounts| > 0 {
      assert Apply(map[], o.ops) == ApplyOp(map[], o.ops[0]);
    }
    if |cfg.basicAccounts| > 0 && |cfg.apiKeys| > 0 {
      assert OnOffer(cfg) == ["Basic Auth", "X-API-Key"];
      assert OnOffer(cfg)[1..] == ["X-API-Key"];
      assert Strings.Join(OnOffer(cfg), ",") == "Basic Auth" + "," + "X-API-Key";
      assert "Basic Auth" + "," + "X-API-Key" == "Basic Auth,X-API-Key";
    }
  }
}
