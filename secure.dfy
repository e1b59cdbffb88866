/** interceptor/secure/interceptor.go: the security-header handler. A straight line of
    conditional Header.Set calls, among them Strict-Transport-Security in the format of
    section 6.1 of RFC 6797; the request always goes on to the chain. */
module Secure {
  import opened Wrappers
  import opened Web
  import Strings
  import Common

  const XssProtection := "X-XSS-Protection"
  const ContentTypeOptions := "X-Content-Type-Options"
  const FrameOptions := "X-Frame-Options"
  const StrictTransportSecurity := "Strict-Transport-Security"
  const ContentSecurityPolicy := "Content-Security-Policy"
  const ContentSecurityPolicyReportOnly := "Content-Security-Policy-Report-Only"
  const ReferrerPolicy := "Referrer-Policy"
  const ForwardedProto := "X-Forwarded-Proto"

  const IncludeSubdomains := "; includeSubdomains"
  const Preload := "; preload"

  /** The option set fields the handler reads. */
  datatype Config = Config(
    entryName: string,
    xssProtection: string,
    contentTypeNosniff: string,
    xFrameOptions: string,
    hstsMaxAge: int,
    hstsExcludeSubdomains: bool,
    hstsPreloadEnabled: bool,
    contentSecurityPolicy: string,
    cspReportOnly: bool,
    referrerPolicy: string)

  /** HSTS is written over TLS, or behind a proxy that says the client used https. */
  predicate HttpsRequest(req: Request)
  {
    req.tls || Peek(req, ForwardedProto) == "https"
  }

  /** fmt.Sprintf("max-age=%d%s", HSTSMaxAge, subdomains). */
  function HstsValue(cfg: Config): string
  {
    var subdomains := if !cfg.hstsExcludeSubdomains then IncludeSubdomains else "";
    var subdomains := if cfg.hstsPreloadEnabled then subdomains + Preload else subdomains;
    "max-age=" + Strings.IntToString(cfg.hstsMaxAge) + subdomains
  }

  /** `if cond { res.Header.Set(k, v) }` as a sequence of writes. */
  function SetIf(cond: bool, k: string, v: string): seq<HeaderOp>
  {
    if cond then [Set(k, v)] else []
  }

  /** The writes of one request that is not skipped, in the order the handler makes them. */
  function SecureOps(cfg: Config, req: Request): seq<HeaderOp>
  {
    BasicOps(cfg) + HstsOps(cfg, req) + PolicyOps(cfg)
  }

  /** X-XSS-Protection, X-Content-Type-Options and X-Frame-Options, each when configured. */
  function BasicOps(cfg: Config): seq<HeaderOp>
  {
    SetIf(cfg.xssProtection != "", XssProtection, cfg.xssProtection)
    + SetIf(cfg.contentTypeNosniff != "", ContentTypeOptions, cfg.contentTypeNosniff)
    + SetIf(cfg.xFrameOptions != "", FrameOptions, cfg.xFrameOptions)
  }

  /** Strict-Transport-Security for an https request when a max-age is configured. */
  function HstsOps(cfg: Config, req: Request): seq<HeaderOp>
  {
    SetIf(HttpsRequest(req) && cfg.hstsMaxAge != 0, StrictTransportSecurity, HstsValue(cfg))
  }

  /** Content-Security-Policy or its report-only form, then Referrer-Policy. */
  function PolicyOps(cfg: Config): seq<HeaderOp>
  {
    CspOps(cfg) + SetIf(cfg.referrerPolicy != "", ReferrerPolicy, cfg.referrerPolicy)
  }

  /** Content-Security-Policy, or its report-only form, when a policy is configured. */
  function CspOps(cfg: Config): seq<HeaderOp>
  {
    var policy := cfg.contentSecurityPolicy;
    SetIf(policy != "" && cfg.cspReportOnly, ContentSecurityPolicyReportOnly, policy)
    + SetIf(policy != "" && !cfg.cspReportOnly, ContentSecurityPolicy, policy)
  }

  function Decide(cfg: Config, req: Request, skip: bool): seq<HeaderOp>
  {
    if skip then [] else SecureOps(cfg, req)
  }

  /** The handler: records the entry name, writes the headers, and always calls the chain. */
  method Handle(cfg: Config, ctx: Ctx, skip: bool) returns (flow: Flow)
    modifies ctx`headers, ctx`userValues
    ensures flow == CallNext
    ensures ctx.headers == Apply(old(ctx.headers), Decide(cfg, ctx.request, skip))
    ensures ctx.userValues == old(ctx.userValues)[Common.EntryNameKey := Str(cfg.entryName)]
  {
    ctx.SetUserValue(Common.EntryNameKey, Str(cfg.entryName));
    if skip {
      return CallNext;
    }
    WriteHeaders(cfg, ctx);
    return CallNext;
  }

  method WriteIf(ctx: Ctx, cond: bool, k: string, v: string)
    modifies ctx`headers
    ensures ctx.headers == Apply(old(ctx.headers), SetIf(cond, k, v))
  {
    if cond {
      ctx.SetHeader(k, v);
      assert Apply(old(ctx.headers), [Set(k, v)]) == ApplyOp(old(ctx.headers), Set(k, v));
    }
  }

  /** Builds the Strict-Transport-Security value and writes it when the request came over
      https and a max-age is configured. */
  method WriteHsts(cfg: Config, ctx: Ctx)
    modifies ctx`headers
    ensures ctx.headers == Apply(old(ctx.headers), HstsOps(cfg, ctx.request))
  {
    if (ctx.request.tls || Peek(ctx.request, ForwardedProto) == "https") && cfg.hstsMaxAge != 0 {
      var subdomains := "";
      if !cfg.hstsExcludeSubdomains {
        subdomains := IncludeSubdomains;
      }
      if cfg.hstsPreloadEnabled {
        subdomains := subdomains + Preload;
      }
      var value := "max-age=" + Strings.IntToString(cfg.hstsMaxAge) + subdomains;
      ctx.SetHeader(StrictTransportSecurity, value);
      assert Apply(old(ctx.headers), [Set(StrictTransportSecurity, value)]) == ApplyOp(old(ctx.headers), Set(StrictTransportSecurity, value));
    }
  }

  method WriteHeaders(cfg: Config, ctx: Ctx)
    modifies ctx`headers
    ensures ctx.headers == Apply(old(ctx.headers), SecureOps(cfg, ctx.request))
  {
    ghost var h0 := ctx.headers;
    WriteBasic(cfg, ctx);
    ghost var mid := ctx.headers;
    WriteHsts(cfg, ctx);
    Extend(h0, BasicOps(cfg), HstsOps(cfg, ctx.request), mid, ctx.headers);
    mid := ctx.headers;
    WriteCsp(cfg, ctx);
    ghost var mid2 := ctx.headers;
    WriteIf(ctx, cfg.referrerPolicy != "", ReferrerPolicy, cfg.referrerPolicy);
    Extend(mid, CspOps(cfg), SetIf(cfg.referrerPolicy != "", ReferrerPolicy, cfg.referrerPolicy), mid2, ctx.headers);
    Extend(h0, BasicOps(cfg) + HstsOps(cfg, ctx.request), PolicyOps(cfg), mid, ctx.headers);
  }

  method WriteBasic(cfg: Config, ctx: Ctx)
    modifies ctx`headers
    ensures ctx.headers == Apply(old(ctx.headers), BasicOps(cfg))
  {
    ghost var h0 := ctx.headers;
    WriteIf(ctx, cfg.xssProtection != "", XssProtection, cfg.xssProtection);
    ghost var mid := ctx.headers;
    WriteIf(ctx, cfg.contentTypeNosniff != "", ContentTypeOptions, cfg.contentTypeNosniff);
    Extend(h0, SetIf(cfg.xssProtection != "", XssProtection, cfg.xssProtection),
           SetIf(cfg.contentTypeNosniff != "", ContentTypeOptions, cfg.contentTypeNosniff), mid, ctx.headers);
    mid := ctx.headers;
    WriteIf(ctx, cfg.xFrameOptions != "", FrameOptions, cfg.xFrameOptions);
    Extend(h0, SetIf(cfg.xssProtection != "", XssProtection, cfg.xssProtection)
               + SetIf(cfg.contentTypeNosniff != "", ContentTypeOptions, cfg.contentTypeNosniff),
           SetIf(cfg.xFrameOptions != "", FrameOptions, cfg.xFrameOptions), mid, ctx.headers);
  }

  method WriteCsp(cfg: Config, ctx: Ctx)
    modifies ctx`headers
    ensures ctx.headers == Apply(old(ctx.headers), CspOps(cfg))
  {
    var policy := cfg.contentSecurityPolicy;
    if policy != "" {
      if cfg.cspReportOnly {
        ctx.SetHeader(ContentSecurityPolicyReportOnly, policy);
        assert Apply(old(ctx.headers), [Set(ContentSecurityPolicyReportOnly, policy)]) == ApplyOp(old(ctx.headers), Set(ContentSecurityPolicyReportOnly, policy));
      } else {
        ctx.SetHeader(ContentSecurityPolicy, policy);
        assert Apply(old(ctx.headers), [Set(ContentSecurityPolicy, policy)]) == ApplyOp(old(ctx.headers), Set(ContentSecurityPolicy, policy));
      }
    }
  }

  lemma Extend(h0: Headers, acc: seq<HeaderOp>, p: seq<HeaderOp>, mid: Headers, after: Headers)
    requires mid == Apply(h0, acc) && after == Apply(mid, p)
    ensures after == Apply(h0, acc + p)
  {
    ApplyAppend(h0, acc, p);
  }

  lemma TrackSetIf(vs: seq<string>, cond: bool, k: string, v: string, name: string)
    ensures Track(vs, SetIf(cond, k, v), name) == if cond && k == name then [v] else vs
  {
  }

  /** The value every header name has after a request that is not skipped: each of the
      seven headers is written iff its condition holds; every other name is untouched. */
  lemma HeaderValues(cfg: Config, req: Request, h: Headers, k: string)
    ensures Values(Apply(h, SecureOps(cfg, req)), k) ==
      if k == ReferrerPolicy && cfg.referrerPolicy != "" then [cfg.referrerPolicy]
      else if k == ContentSecurityPolicy && cfg.contentSecurityPolicy != "" && !cfg.cspReportOnly then [cfg.contentSecurityPolicy]
      else if k == ContentSecurityPolicyReportOnly && cfg.contentSecurityPolicy != "" && cfg.cspReportOnly then [cfg.contentSecurityPolicy]
      else if k == StrictTransportSecurity && HttpsRequest(req) && cfg.hstsMaxAge != 0 then [HstsValue(cfg)]
      else if k == FrameOptions && cfg.xFrameOptions != "" then [cfg.xFrameOptions]
      else if k == ContentTypeOptions && cfg.contentTypeNosniff != "" then [cfg.contentTypeNosniff]
      else if k == XssProtection && cfg.xssProtection != "" then [cfg.xssProtection]
      else Values(h, k)
  {
    var vs := Values(h, k);
    ApplyValues(h, SecureOps(cfg, req), k);
    TrackAppend(vs, BasicOps(cfg) + HstsOps(cfg, req), PolicyOps(cfg), k);
    TrackAppend(vs, BasicOps(cfg), HstsOps(cfg, req), k);
    var t := Track(vs, BasicOps(cfg), k);
    BasicValues(cfg, vs, k);
    TrackSetIf(t, HttpsRequest(req) && cfg.hstsMaxAge != 0, StrictTransportSecurity, HstsValue(cfg), k);
    PolicyValues(cfg, Track(t, HstsOps(cfg, req), k), k);
  }

  lemma BasicValues(cfg: Config, vs: seq<string>, k: string)
    ensures Track(vs, BasicOps(cfg), k) ==
      if k == FrameOptions && cfg.xFrameOptions != "" then [cfg.xFrameOptions]
      else if k == ContentTypeOptions && cfg.contentTypeNosniff != "" then [cfg.contentTypeNosniff]
      else if k == XssProtection && cfg.xssProtection != "" then [cfg.xssProtection]
      else vs
  {
    var p1 := SetIf(cfg.xssProtection != "", XssProtection, cfg.xssProtection);
    var p2 := SetIf(cfg.contentTypeNosniff != "", ContentTypeOptions, cfg.contentTypeNosniff);
    var p3 := SetIf(cfg.xFrameOptions != "", FrameOptions, cfg.xFrameOptions);
    TrackAppend(vs, p1 + p2, p3, k);
    TrackAppend(vs, p1, p2, k);
    TrackSetIf(vs, cfg.xssProtection != "", XssProtection, cfg.xssProtection, k);
    TrackSetIf(Track(vs, p1, k), cfg.contentTypeNosniff != "", ContentTypeOptions, cfg.contentTypeNosniff, k);
    TrackSetIf(Track(Track(vs, p1, k), p2, k), cfg.xFrameOptions != "", FrameOptions, cfg.xFrameOptions, k);
  }

  lemma PolicyValues(cfg: Config, vs: seq<string>, k: string)
    ensures Track(vs, PolicyOps(cfg), k) ==
      if k == ReferrerPolicy && cfg.referrerPolicy != "" then [cfg.referrerPolicy]
      else if k == ContentSecurityPolicy && cfg.contentSecurityPolicy != "" && !cfg.cspReportOnly then [cfg.contentSecurityPolicy]
      else if k == ContentSecurityPolicyReportOnly && cfg.contentSecurityPolicy != "" && cfg.cspReportOnly then [cfg.contentSecurityPolicy]
      else vs
  {
    var policy := cfg.contentSecurityPolicy;
    var p5 := SetIf(policy != "" && cfg.cspReportOnly, ContentSecurityPolicyReportOnly, policy);
    var p6 := SetIf(policy != "" && !cfg.cspReportOnly, ContentSecurityPolicy, policy);
    var p7 := SetIf(cfg.referrerPolicy != "", ReferrerPolicy, cfg.referrerPolicy);
    TrackAppend(vs, p5 + p6, p7, k);
    TrackAppend(vs, p5, p6, k);
    TrackSetIf(vs, policy != "" && cfg.cspReportOnly, ContentSecurityPolicyReportOnly, policy, k);
    TrackSetIf(Track(vs, p5, k), policy != "" && !cfg.cspReportOnly, ContentSecurityPolicy, policy, k);
    TrackSetIf(Track(Track(vs, p5, k), p6, k), cfg.referrerPolicy != "", ReferrerPolicy, cfg.referrerPolicy, k);
  }

  /** With a non-empty policy exactly one of the two CSP headers is written: the report-only
      one when CSPReportOnly is set, Content-Security-Policy otherwise; the other is untouched. */
  lemma CspExclusive(cfg: Config, req: Request, h: Headers)
    requires cfg.contentSecurityPolicy != ""
    ensures var r := Apply(h, SecureOps(cfg, req));
      && (Values(r, ContentSecurityPolicyReportOnly) == [cfg.contentSecurityPolicy] <==> cfg.cspReportOnly || Values(h, ContentSecurityPolicyReportOnly) == [cfg.contentSecurityPolicy])
      && (cfg.cspReportOnly ==> Values(r, ContentSecurityPolicy) == Values(h, ContentSecurityPolicy))
      && (!cfg.cspReportOnly ==> Values(r, ContentSecurityPolicyReportOnly) == Values(h, ContentSecurityPolicyReportOnly))
      && (!cfg.cspReportOnly ==> Values(r, ContentSecurityPolicy) == [cfg.contentSecurityPolicy])
  {
    HeaderValues(cfg, req, h, ContentSecurityPolicyReportOnly);
    HeaderValues(cfg, req, h, ContentSecurityPolicy);
  }

  predicate HasSuffix(s: string, t: string)
  {
    |t| <= |s| && s[|s| - |t|..] == t
  }

  /** Reads a Strict-Transport-Security value back into (max-age, includeSubdomains, preload). */
  function ParseHsts(s: string): Option<(int, bool, bool)>
  {
    if !("max-age=" <= s) then None
    else
      var rest := s[|"max-age="|..];
      var preload := HasSuffix(rest, Preload);
      var rest := if preload then rest[..|rest| - |Preload|] else rest;
      var subdomains := HasSuffix(rest, IncludeSubdomains);
      var rest := if subdomains then rest[..|rest| - |IncludeSubdomains|] else rest;
      match Strings.ParseInt(rest)
      case None => None
      case Some(n) => Some((n, subdomains, preload))
  }

  /** The HSTS value says exactly what was configured: its max-age, whether subdomains are
      included and whether preload is on can all be read back from it. */
  lemma HstsRoundTrip(cfg: Config)
    ensures ParseHsts(HstsValue(cfg)) == Some((cfg.hstsMaxAge, !cfg.hstsExcludeSubdomains, cfg.hstsPreloadEnabled))
  {
    var n := Strings.IntToString(cfg.hstsMaxAge);
    var a := if !cfg.hstsExcludeSubdomains then IncludeSubdomains else "";
    var b := if cfg.hstsPreloadEnabled then Preload else "";
    var s := HstsValue(cfg);
    assert s == "max-age=" + (n + a + b);
    assert s[|"max-age="|..] == n + a + b;
    LastDigit(cfg.hstsMaxAge);
    StripFlags(n, !cfg.hstsExcludeSubdomains, cfg.hstsPreloadEnabled);
    Strings.ParseIntToString(cfg.hstsMaxAge);
  }

  /** Removing the two optional suffixes from `n + a + b` gives back `n` and which were there. */
  lemma StripFlags(n: string, subdomains: bool, preload: bool)
    requires |n| > 0 && Strings.IsDigit(n[|n| - 1])
    ensures var rest := n + (if subdomains then IncludeSubdomains else "") + (if preload then Preload else "");
      && HasSuffix(rest, Preload) == preload
      && var rest := if preload then rest[..|rest| - |Preload|] else rest;
      && HasSuffix(rest, IncludeSubdomains) == subdomains
      && (if subdomains then rest[..|rest| - |IncludeSubdomains|] else rest) == n
  {
    var a := if subdomains then IncludeSubdomains else "";
    var b := if preload then Preload else "";
    var na := n + a;
    assert |na| > 0 && na[|na| - 1] != 'd' by {
      if subdomains { assert na[|na| - 1] == 's'; } else { assert na == n; }
    }
    if preload {
      StripSuffix(na, Preload);
    } else {
      assert na + b == na;
      NoSuffix(na, Preload);
    }
    if subdomains {
      StripSuffix(n, IncludeSubdomains);
    } else {
      assert na == n;
      NoSuffix(n, IncludeSubdomains);
    }
  }

  lemma StripSuffix(x: string, t: string)
    ensures HasSuffix(x + t, t) && (x + t)[..|x + t| - |t|] == x
  {
    assert (x + t)[|x + t| - |t|..] == t;
  }

  lemma NoSuffix(x: string, t: string)
    requires |x| > 0 && |t| > 0 && x[|x| - 1] != t[|t| - 1]
    ensures !HasSuffix(x, t)
  {
  }

  /** A decimal form ends with a digit. */
  lemma LastDigit(i: int)
    ensures var n := Strings.IntToString(i); |n| > 0 && Strings.IsDigit(n[|n| - 1])
  {
  }
}
