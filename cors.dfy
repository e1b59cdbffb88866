/** interceptor/cors/interceptor.go: the CORS handler. Which response headers it writes,
    and whether it passes the request on or answers 204, follow from the configuration, the
    request method, the Origin and Access-Control-Request-Headers request headers, and the
    skipper's and origin check's answers. */
module Cors {
  import opened Wrappers
  import opened Web
  import Strings
  import Common

  const HeaderOrigin := "Origin"
  const HeaderVary := "Vary"
  const RequestMethod := "Access-Control-Request-Method"
  const RequestHeaders := "Access-Control-Request-Headers"
  const AllowOrigin := "Access-Control-Allow-Origin"
  const AllowMethods := "Access-Control-Allow-Methods"
  const AllowCredentials := "Access-Control-Allow-Credentials"
  const AllowHeaders := "Access-Control-Allow-Headers"
  const ExposeHeaders := "Access-Control-Expose-Headers"
  const MaxAge := "Access-Control-Max-Age"

  /** The option set fields the handler reads. */
  datatype Config = Config(
    entryName: string,
    allowMethods: seq<string>,
    allowHeaders: seq<string>,
    exposeHeaders: seq<string>,
    allowCredentials: bool,
    maxAge: int)

  /** The response-header writes of one request, in order, and what the handler returns. */
  datatype Decision = Decision(ops: seq<HeaderOp>, flow: Flow)

  const NoContent := Stop(Some(StatusError(StatusNoContent)))

  /** The writes for an allowed request that is not a preflight. */
  function SimpleOps(cfg: Config, origin: string): seq<HeaderOp>
  {
    var ops := [Set(AllowOrigin, origin)];
    var ops := if cfg.allowCredentials then ops + [Set(AllowCredentials, "true")] else ops;
    var expose := Strings.Join(cfg.exposeHeaders, ",");
    if expose != "" then ops + [Set(ExposeHeaders, expose)] else ops
  }

  /** The writes for an allowed preflight; `requested` is the request's
      Access-Control-Request-Headers. */
  function PreflightOps(cfg: Config, origin: string, requested: string): seq<HeaderOp>
  {
    PreflightBase(cfg, origin) + PreflightTail(cfg, requested)
  }

  /** The four writes every allowed preflight makes. */
  function PreflightBase(cfg: Config, origin: string): seq<HeaderOp>
  {
    [Add(HeaderVary, RequestMethod), Add(HeaderVary, RequestHeaders),
     Set(AllowOrigin, origin), Set(AllowMethods, Strings.Join(cfg.allowMethods, ","))]
  }

  /** The writes that depend on the configuration and on the requested headers. */
  function PreflightTail(cfg: Config, requested: string): seq<HeaderOp>
  {
    var ops := if cfg.allowCredentials then [Set(AllowCredentials, "true")] else [];
    var allowHeaders := Strings.Join(cfg.allowHeaders, ",");
    var ops := if allowHeaders != "" then ops + [Set(AllowHeaders, allowHeaders)]
               else if requested != "" then ops + [Set(AllowHeaders, requested)]
               else ops;
    if cfg.maxAge > 0 then ops + [Set(MaxAge, Strings.IntToString(cfg.maxAge))] else ops
  }

  /** The decision tree: `skip` is the skipper's answer for this request and `allowed` the
      option set's origin check. */
  function Decide(cfg: Config, req: Request, skip: bool, allowed: string -> bool): Decision
  {
    var origin := Peek(req, HeaderOrigin);
    var preflight := req.verb == MethodOptions;
    if skip then Decision([], CallNext)
    else if origin == "" then
      if !preflight then Decision([], CallNext) else Decision([], NoContent)
    else if !allowed(origin) then Decision([], NoContent)
    else if !preflight then Decision(SimpleOps(cfg, origin), CallNext)
    else Decision(PreflightOps(cfg, origin, Peek(req, RequestHeaders)), NoContent)
  }

  /** Writes the headers of an allowed simple request, one call at a time. */
  method WriteSimple(cfg: Config, ctx: Ctx, origin: string)
    modifies ctx`headers
    ensures ctx.headers == Apply(old(ctx.headers), SimpleOps(cfg, origin))
  {
    ghost var h0 := ctx.headers;
    ctx.SetHeader(AllowOrigin, origin);
    ghost var ops := [Set(AllowOrigin, origin)];
    assert Apply(h0, ops) == ApplyOp(h0, ops[0]);
    if cfg.allowCredentials {
      ctx.SetHeader(AllowCredentials, "true");
      ApplySnoc(h0, ops, Set(AllowCredentials, "true"));
      ops := ops + [Set(AllowCredentials, "true")];
    }
    var expose := Strings.Join(cfg.exposeHeaders, ",");
    if expose != "" {
      ctx.SetHeader(ExposeHeaders, expose);
      ApplySnoc(h0, ops, Set(ExposeHeaders, expose));
      ops := ops + [Set(ExposeHeaders, expose)];
    }
  }

  /** Writes the headers of an allowed preflight, one call at a time. */
  method WritePreflight(cfg: Config, ctx: Ctx, origin: string)
    modifies ctx`headers
    ensures ctx.headers == Apply(old(ctx.headers), PreflightOps(cfg, origin, Peek(ctx.request, RequestHeaders)))
  {
    ghost var h0 := ctx.headers;
    ctx.AddHeader(HeaderVary, RequestMethod);
    ghost var ops := [Add(HeaderVary, RequestMethod)];
    assert Apply(h0, ops) == ApplyOp(h0, ops[0]);
    ctx.AddHeader(HeaderVary, RequestHeaders);
    ApplySnoc(h0, ops, Add(HeaderVary, RequestHeaders));
    ops := ops + [Add(HeaderVary, RequestHeaders)];
    ctx.SetHeader(AllowOrigin, origin);
    ApplySnoc(h0, ops, Set(AllowOrigin, origin));
    ops := ops + [Set(AllowOrigin, origin)];
    var methods := Strings.Join(cfg.allowMethods, ",");
    ctx.SetHeader(AllowMethods, methods);
    ApplySnoc(h0, ops, Set(AllowMethods, methods));
    ops := ops + [Set(AllowMethods, methods)];
    assert ops == PreflightBase(cfg, origin);
    WritePreflightTail(cfg, ctx);
    ApplyAppend(h0, ops, PreflightTail(cfg, Peek(ctx.request, RequestHeaders)));
  }

  /** The configuration-dependent part of the preflight writes. */
  method WritePreflightTail(cfg: Config, ctx: Ctx)
    modifies ctx`headers
    ensures ctx.headers == Apply(old(ctx.headers), PreflightTail(cfg, Peek(ctx.request, RequestHeaders)))
  {
    ghost var h1 := ctx.headers;
    ghost var tail: seq<HeaderOp> := [];
    if cfg.allowCredentials {
      ctx.SetHeader(AllowCredentials, "true");
      ApplySnoc(h1, tail, Set(AllowCredentials, "true"));
      tail := tail + [Set(AllowCredentials, "true")];
    }
    var allowHeaders := Strings.Join(cfg.allowHeaders, ",");
    var requested := Peek(ctx.request, RequestHeaders);
    if allowHeaders != "" {
      ctx.SetHeader(AllowHeaders, allowHeaders);
      ApplySnoc(h1, tail, Set(AllowHeaders, allowHeaders));
      tail := tail + [Set(AllowHeaders, allowHeaders)];
    } else if requested != "" {
      ctx.SetHeader(AllowHeaders, requested);
      ApplySnoc(h1, tail, Set(AllowHeaders, requested));
      tail := tail + [Set(AllowHeaders, requested)];
    }
    if cfg.maxAge > 0 {
      var age := Strings.IntToString(cfg.maxAge);
      ctx.SetHeader(MaxAge, age);
      ApplySnoc(h1, tail, Set(MaxAge, age));
      tail := tail + [Set(MaxAge, age)];
    }
    assert tail == PreflightTail(cfg, requested);
  }

  /** The handler: records the entry name in the user context, then follows the decision
      tree. The returned flow says whether the chain goes on. */
  method Handle(cfg: Config, ctx: Ctx, skip: bool, allowed: string -> bool) returns (flow: Flow)
    modifies ctx`headers, ctx`userValues
    ensures flow == Decide(cfg, ctx.request, skip, allowed).flow
    ensures ctx.headers == Apply(old(ctx.headers), Decide(cfg, ctx.request, skip, allowed).ops)
    ensures ctx.userValues == old(ctx.userValues)[Common.EntryNameKey := Str(cfg.entryName)]
  {
    ctx.SetUserValue(Common.EntryNameKey, Str(cfg.entryName));
    if skip {
      return CallNext;
    }
    var origin := Peek(ctx.request, HeaderOrigin);
    var preflight := ctx.request.verb == MethodOptions;
    if origin == "" {
      if !preflight {
        return CallNext;
      }
      return NoContent;
    }
    if !allowed(origin) {
      return NoContent;
    }
    if !preflight {
      WriteSimple(cfg, ctx, origin);
      return CallNext;
    }
    WritePreflight(cfg, ctx, origin);
    return NoContent;
  }

  /** Skipped requests, requests without Origin and disallowed origins get no CORS header.
      Without Origin only OPTIONS is answered 204; a disallowed origin is always answered 204. */
  lemma NoHeadersWritten(cfg: Config, req: Request, skip: bool, allowed: string -> bool)
    requires skip || Peek(req, HeaderOrigin) == "" || !allowed(Peek(req, HeaderOrigin))
    ensures Decide(cfg, req, skip, allowed).ops == []
    ensures skip ==> Decide(cfg, req, skip, allowed).flow == CallNext
    ensures !skip && Peek(req, HeaderOrigin) == "" ==>
      Decide(cfg, req, skip, allowed).flow == (if req.verb == MethodOptions then NoContent else CallNext)
    ensures !skip && Peek(req, HeaderOrigin) != "" ==> Decide(cfg, req, skip, allowed).flow == NoContent
  {
  }

  /** The values of every header name after the writes of a simple request. */
  lemma SimpleValues(cfg: Config, origin: string, h: Headers, k: string)
    ensures var expose := Strings.Join(cfg.exposeHeaders, ",");
      Values(Apply(h, SimpleOps(cfg, origin)), k) ==
        if k == ExposeHeaders && expose != "" then [expose]
        else if k == AllowCredentials && cfg.allowCredentials then ["true"]
        else if k == AllowOrigin then [origin]
        else Values(h, k)
  {
    var ops := [Set(AllowOrigin, origin)];
    assert Apply(h, ops) == ApplyOp(h, ops[0]);
    if cfg.allowCredentials {
      ApplySnoc(h, ops, Set(AllowCredentials, "true"));
      ops := ops + [Set(AllowCredentials, "true")];
    }
    var expose := Strings.Join(cfg.exposeHeaders, ",");
    if expose != "" {
      ApplySnoc(h, ops, Set(ExposeHeaders, expose));
    }
  }

  /** An allowed simple request: the origin is echoed, credentials are announced only when
      configured, the exposed headers only when their joined list is non-empty (that is, unless
      none or a single empty one is configured); every other header, Vary included, is
      untouched, and the chain goes on. */
  lemma SimpleRequest(cfg: Config, req: Request, allowed: string -> bool, h: Headers, k: string)
    requires Peek(req, HeaderOrigin) != "" && allowed(Peek(req, HeaderOrigin))
    requires req.verb != MethodOptions
    ensures var d := Decide(cfg, req, false, allowed);
      var r := Apply(h, d.ops);
      var expose := Strings.Join(cfg.exposeHeaders, ",");
      && d.flow == CallNext
      && Values(r, AllowOrigin) == [Peek(req, HeaderOrigin)]
      && Values(r, AllowCredentials) == (if cfg.allowCredentials then ["true"] else Values(h, AllowCredentials))
      && Values(r, ExposeHeaders) == (if expose != "" then [expose] else Values(h, ExposeHeaders))
      && (expose == "" <==> |cfg.exposeHeaders| == 0 || cfg.exposeHeaders == [""])
      && (k != AllowOrigin && k != AllowCredentials && k != ExposeHeaders ==> Values(r, k) == Values(h, k))
  {
    var origin := Peek(req, HeaderOrigin);
    SimpleValues(cfg, origin, h, AllowOrigin);
    SimpleValues(cfg, origin, h, AllowCredentials);
    SimpleValues(cfg, origin, h, ExposeHeaders);
    SimpleValues(cfg, origin, h, k);
    Strings.JoinEmpty(cfg.exposeHeaders, ",");
  }

  /** The values of one name after the four unconditional writes of a preflight. */
  lemma PreflightBaseValues(cfg: Config, origin: string, vs: seq<string>, k: string)
    ensures Track(vs, PreflightBase(cfg, origin), k) ==
      if k == HeaderVary then vs + [RequestMethod, RequestHeaders]
      else if k == AllowOrigin then [origin]
      else if k == AllowMethods then [Strings.Join(cfg.allowMethods, ",")]
      else vs
  {
    var o := [Add(HeaderVary, RequestMethod)];
    assert Track(vs, o, k) == Step(vs, o[0], k);
    TrackSnoc(vs, o, Add(HeaderVary, RequestHeaders), k);
    o := o + [Add(HeaderVary, RequestHeaders)];
    TrackSnoc(vs, o, Set(AllowOrigin, origin), k);
    o := o + [Set(AllowOrigin, origin)];
    TrackSnoc(vs, o, Set(AllowMethods, Strings.Join(cfg.allowMethods, ",")), k);
    o := o + [Set(AllowMethods, Strings.Join(cfg.allowMethods, ","))];
    assert o == PreflightBase(cfg, origin);
  }

  /** The values of one name after the configuration-dependent writes of a preflight. */
  lemma PreflightTailValues(cfg: Config, requested: string, vs: seq<string>, k: string)
    ensures var configured := Strings.Join(cfg.allowHeaders, ",");
      Track(vs, PreflightTail(cfg, requested), k) ==
        if k == AllowCredentials && cfg.allowCredentials then ["true"]
        else if k == AllowHeaders && configured != "" then [configured]
        else if k == AllowHeaders && requested != "" then [requested]
        else if k == MaxAge && cfg.maxAge > 0 then [Strings.IntToString(cfg.maxAge)]
        else vs
  {
    var o: seq<HeaderOp> := [];
    if cfg.allowCredentials {
      TrackSnoc(vs, o, Set(AllowCredentials, "true"), k);
      o := o + [Set(AllowCredentials, "true")];
    }
    var configured := Strings.Join(cfg.allowHeaders, ",");
    if configured != "" {
      TrackSnoc(vs, o, Set(AllowHeaders, configured), k);
      o := o + [Set(AllowHeaders, configured)];
    } else if requested != "" {
      TrackSnoc(vs, o, Set(AllowHeaders, requested), k);
      o := o + [Set(AllowHeaders, requested)];
    }
    if cfg.maxAge > 0 {
      TrackSnoc(vs, o, Set(MaxAge, Strings.IntToString(cfg.maxAge)), k);
      o := o + [Set(MaxAge, Strings.IntToString(cfg.maxAge))];
    }
    assert o == PreflightTail(cfg, requested);
  }

  /** The values of every header name after the writes of a preflight. */
  lemma PreflightValues(cfg: Config, origin: string, requested: string, h: Headers, k: string)
    ensures var configured := Strings.Join(cfg.allowHeaders, ",");
      Values(Apply(h, PreflightOps(cfg, origin, requested)), k) ==
        if k == HeaderVary then Values(h, k) + [RequestMethod, RequestHeaders]
        else if k == AllowOrigin then [origin]
        else if k == AllowMethods then [Strings.Join(cfg.allowMethods, ",")]
        else if k == AllowCredentials && cfg.allowCredentials then ["true"]
        else if k == AllowHeaders && configured != "" then [configured]
        else if k == AllowHeaders && requested != "" then [requested]
        else if k == MaxAge && cfg.maxAge > 0 then [Strings.IntToString(cfg.maxAge)]
        else Values(h, k)
  {
    var vs := Values(h, k);
    ApplyValues(h, PreflightOps(cfg, origin, requested), k);
    TrackAppend(vs, PreflightBase(cfg, origin), PreflightTail(cfg, requested), k);
    PreflightBaseValues(cfg, origin, vs, k);
    PreflightTailValues(cfg, requested, Track(vs, PreflightBase(cfg, origin), k), k);
  }

  /** An allowed preflight: Vary gains exactly Access-Control-Request-Method then
      Access-Control-Request-Headers, the origin is echoed, the methods are the comma-joined
      list, Allow-Headers is the configured list or else the requested headers (untouched
      when both are empty), Max-Age is written in decimal only when positive, nothing else
      is written, and the answer is 204 without calling the chain. */
  lemma Preflight(cfg: Config, req: Request, allowed: string -> bool, h: Headers, k: string)
    requires Peek(req, HeaderOrigin) != "" && allowed(Peek(req, HeaderOrigin))
    requires req.verb == MethodOptions
    ensures var d := Decide(cfg, req, false, allowed);
      var r := Apply(h, d.ops);
      var configured := Strings.Join(cfg.allowHeaders, ",");
      var requested := Peek(req, RequestHeaders);
      && d.flow == NoContent
      && Values(r, HeaderVary) == Values(h, HeaderVary) + [RequestMethod, RequestHeaders]
      && Values(r, AllowOrigin) == [Peek(req, HeaderOrigin)]
      && Values(r, AllowMethods) == [Strings.Join(cfg.allowMethods, ",")]
      && Values(r, AllowCredentials) == (if cfg.allowCredentials then ["true"] else Values(h, AllowCredentials))
      && Values(r, AllowHeaders) ==
           (if configured != "" then [configured]
            else if requested != "" then [requested]
            else Values(h, AllowHeaders))
      && Values(r, MaxAge) == (if cfg.maxAge > 0 then [Strings.IntToString(cfg.maxAge)] else Values(h, MaxAge))
      && (k !in {HeaderVary, AllowOrigin, AllowMethods, AllowCredentials, AllowHeaders, MaxAge} ==> Values(r, k) == Values(h, k))
  {
    var origin := Peek(req, HeaderOrigin);
    var requested := Peek(req, RequestHeaders);
    PreflightValues(cfg, origin, requested, h, HeaderVary);
    PreflightValues(cfg, origin, requested, h, AllowOrigin);
    PreflightValues(cfg, origin, requested, h, AllowMethods);
    PreflightValues(cfg, origin, requested, h, AllowCredentials);
    PreflightValues(cfg, origin, requested, h, AllowHeaders);
    PreflightValues(cfg, origin, requested, h, MaxAge);
    PreflightValues(cfg, origin, requested, h, k);
  }
}
