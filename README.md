# rk-fiber: a Dafny model of the interceptors and the boot chain

This project models the decision logic of rk-fiber, the fiber-framework plugin of the
rk-boot family. It covers:

- **Interceptors**:
  - the timeout table and its outcome dispatch;
  - CORS, CSRF, auth, the security headers and JWT;
  - the remote-address and log-filter helpers;
  - the Prometheus label vector and option-set registry.
- **Boot code**: how `boot/fiber_entry.go` assembles the middleware chain from a YAML
  element, and how it builds and bootstraps a `FiberEntry`.

**How handlers are modelled.** Each handler has two parts: a pure decision function (`Decide`, `Before`) and an
imperative method on the request context `Web.Ctx` that writes step by step.

- The decision function returns the response-header writes, the JSON body and what the handler returns:
  - `CallNext` when `ctx.Next()` is called;
  - `Stop(err)` when the handler returns without calling it.
- The method carries the handler's calls in the source's order.
- It is proved to end in exactly the state the decision describes.
- Lemmas about the decision state what the source promises.

**How headers are modelled.** Response headers are a map from name to value list. `Set` replaces a name's list and `Add` appends to it.

**What is a parameter.** What the handlers learn from code outside this model is passed in as a function or a value:

- the skipper;
- `isOriginAllowed`, `ShouldAuth`, `Authorized`, `isValidToken`;
- the JWT extractors and `ParseTokenFunc`;
- `rkcommon.RandString`;
- the clock;
- `net.SplitHostPort`;
- the environment labels.

**Package-level state.** Go package globals become classes:

- `Timeout.TimeoutPackage` holds `globalTimeoutRk` and `optionsMap`;
- `Prom.PromPackage` holds `optionsMap`.

**Entries and apps.** `Boot.FiberEntry`, `Boot.FiberConfig` and `Boot.App` are classes, because the source updates their fields in place. The boot code shares one `*fiber.Config` between the entry and `Bootstrap`; in the model that config is a heap object too.

Modules:

| module | file | source |
|---|---|---|
| Wrappers | wrappers.dfy | a stock Option type |
| Strings | strings.dfy | `strings.Join`, `strings.SplitN(s, " ", 2)`, `strings.ReplaceAll`, `strconv.Itoa`, `strconv.FormatUint`, with their parsing inverses |
| Web | web.dfy | the fiber request context, its headers, user values and JSON body |
| Common | common.dfy | interceptor/common.go |
| Timeout | timeout.dfy | interceptor/timeout/options.go |
| Cors | cors.dfy | interceptor/cors/interceptor.go |
| Csrf | csrf.dfy | interceptor/csrf/interceptor.go |
| Auth | auth.dfy | interceptor/auth/interceptor.go |
| Secure | secure.dfy | interceptor/secure/interceptor.go |
| Jwt | jwt.dfy | interceptor/jwt/interceptor.go |
| Prom | prom.dfy | interceptor/metrics/prom/options.go |
| Boot | boot.dfy | boot/fiber_entry.go |

## Model

| member | source | states |
|---|---|---|
| Common.GetRemoteAddressSet | interceptor/common.go:64-92 | A nil context or request gives ("0.0.0.0", "0"). A failed split gives the split's own empty results. Otherwise the port comes from the socket. The IP is the first forwarded IP when one exists, else the socket host. "::1" is always reported as "localhost". |
| Common.ShouldLog | interceptor/common.go:95-108 | False for a nil context or request. False for paths under "/rk/v1/assets", "/rk/v1/tv" or "/sw/". True otherwise. |
| Common.ShouldLogExtension | interceptor/common.go:101-105 | A path excluded from logging stays excluded whatever is appended to it. |
| Timeout.NormalisePath | interceptor/timeout/options.go:191-197 | The result starts with "/". A path already starting with "/" is unchanged. The result never equals the "rk-global" key. |
| Timeout.GetTimeoutRk | interceptor/timeout/options.go:127-133 | Returns the exact-match entry when there is one, otherwise the global entry. It is nil only when neither exists. |
| Timeout.ApplyOptionsInvariant | interceptor/timeout/options.go:44-188 | Options keep every table key a "/"-path and every timeout non-zero, and keep the global timeout non-zero. |
| Timeout.ConstructShape | interceptor/timeout/options.go:44-59 | After the set is built, the table holds "rk-global". Every other key starts with "/", and no timeout is zero. |
| Timeout.LookupNeverNil | interceptor/timeout/options.go:55-133 | A built set answers every path. |
| Timeout.ApplyOptionsAppend | interceptor/timeout/options.go:51-53 | Options apply in order: running a + c is running a, then c. |
| Timeout.LastRegistrationWins | interceptor/timeout/options.go:172-188 | The last registration for a path decides getTimeoutRk's answer for it, whatever options come before and whatever other options (other paths, the global, the name) come after. A zero timeout reads as 5s and a nil responder as the default. |
| Timeout.PathEntryKept | interceptor/timeout/options.go:172-188 | Options that do not register a path leave its table entry as it was. |
| Timeout.ZeroIsDefault | interceptor/timeout/options.go:155-182 | For both the global and the per-path option, a zero duration builds exactly the same set as 5s. |
| Timeout.GlobalKept | interceptor/timeout/options.go:146-188 | Options other than WithTimeoutAndResp leave the package-level global alone. |
| Timeout.GlobalCarriesOver | interceptor/timeout/options.go:29-168 | The global left behind by one newOptionSet call becomes the "rk-global" entry of a later set that does not set it again. |
| Timeout.TimeoutDetails | interceptor/timeout/options.go:106-112 | Every detail is non-nil. The downstream error comes first when present, then the custom responder's error. The count is exactly the number of such errors. |
| Timeout.Tick | interceptor/timeout/options.go:92-122 | Finished: returns the downstream error and changes nothing. Panicked: counter panic=1, the event error recorded, status 500, a body with the recovered value, returns nil. TimedOut: counter timeout=1, status 408, body "Request timed out!" with the details above, returns nil. |
| Timeout.TimeoutPackage.NewOptionSet | interceptor/timeout/options.go:44-66 | The loop yields the set and the new global of the specification function Construct. The set is filed only when its entry name is new. The global stays non-zero. |
| Cors.WriteSimple | interceptor/cors/interceptor.go:57-66 | The step-by-step writes equal the simple-request write list. |
| Cors.WritePreflight | interceptor/cors/interceptor.go:79-82 | The step-by-step writes equal the preflight write list: the four fixed writes, then the configuration-dependent ones. |
| Cors.WritePreflightTail | interceptor/cors/interceptor.go:84-101 | The credentials, Allow-Headers and Max-Age writes equal their specification list. |
| Cors.Handle | interceptor/cors/interceptor.go:30-104 | The entry name is stored. The headers end as the decision's writes applied to the old headers, and the handler returns the decision's flow. |
| Cors.NoHeadersWritten | interceptor/cors/interceptor.go:33-54 | A skipped request, one without Origin, or one with a disallowed origin gets no CORS header. Skipped requests go on. Without Origin only OPTIONS gets 204. A disallowed origin always gets 204. |
| Cors.SimpleValues | interceptor/cors/interceptor.go:57-66 | The value of every header name after a simple request. |
| Cors.SimpleRequest | interceptor/cors/interceptor.go:57-68 | The origin is echoed. Credentials appear only when configured. Expose-Headers appears only when its joined list is non-empty, which fails exactly when none or a single empty header is configured. Every other header is untouched, and the chain goes on. |
| Cors.PreflightBaseValues | interceptor/cors/interceptor.go:79-82 | After the fixed writes, Vary gains the two request-header names in order. Allow-Origin and Allow-Methods are set, and other names are untouched. |
| Cors.PreflightTailValues | interceptor/cors/interceptor.go:84-101 | Credentials are "true" only when configured. Allow-Headers is the configured list, else the requested headers, else untouched. Max-Age appears only when positive. |
| Cors.PreflightValues | interceptor/cors/interceptor.go:79-101 | The value of every header name after a preflight. |
| Cors.Preflight | interceptor/cors/interceptor.go:70-103 | All of the preflight rules above hold, nothing else is written, and the answer is 204 without calling the chain. |
| Csrf.ServerToken | interceptor/csrf/interceptor.go:34-43 | A non-empty cookie is reused. Otherwise the token is RandString(TokenLength). |
| Csrf.Approve | interceptor/csrf/interceptor.go:69-102 | The cookie is built field by field and equals BuildCookie. Then the token header is set and Vary gains Cookie. |
| Csrf.Handle | interceptor/csrf/interceptor.go:26-105 | The entry name is stored. Cookies, body, headers and flow end as the decision describes. |
| Csrf.Skipped | interceptor/csrf/interceptor.go:29-32 | A skipped request gets no cookie, no body and no header, and goes on. |
| Csrf.SafeMethodsExempt | interceptor/csrf/interceptor.go:45-47 | For GET, HEAD, OPTIONS and TRACE, neither the extractor nor the comparison changes the outcome. The request proceeds with the cookie. |
| Csrf.ExtractionFails | interceptor/csrf/interceptor.go:50-57 | An unsafe method whose extraction fails gets 400, ErrBadRequest is returned, and the extractor's error is the one detail. No cookie or header is written. |
| Csrf.TokenMismatch | interceptor/csrf/interceptor.go:59-66 | A rejected client token gets 403 "invalid csrf token" and ErrForbidden, with nothing else written. |
| Csrf.Proceeds | interceptor/csrf/interceptor.go:45-104 | The request goes on exactly when it is safe or its token is accepted. Then the cookie carries the server token, the token header holds it, and Vary gains Cookie. |
| Csrf.CookieFields | interceptor/csrf/interceptor.go:70-95 | Name and value are set. Path and domain are set only when configured. SameSite None, Lax and Strict map one-to-one, and other modes leave it unset. Secure holds exactly for None. HttpOnly is copied. Expires is now + MaxAge seconds. |
| Auth.RunBefore | interceptor/auth/interceptor.go:41-106 | The step-by-step status, header and body writes and the returned error equal the decision Before. |
| Auth.Handle | interceptor/auth/interceptor.go:27-38 | The entry name is stored and `before` is applied. The chain is called only when `before` returned nil. |
| Auth.PassesIff | interceptor/auth/interceptor.go:30-105 | The chain runs exactly when auth is not needed, or a well-formed Authorization is accepted, or, with no Authorization, the API key is accepted. Otherwise the answer is 401 with a JSON error. |
| Auth.AuthorizationFirst | interceptor/auth/interceptor.go:49-73 | With a non-empty Authorization header the X-API-Key header is never read. |
| Auth.BadFormat | interceptor/auth/interceptor.go:52-60 | Authorization without a space gives 401 "Invalid Basic Auth format" with no challenge. |
| Auth.RejectedCredential | interceptor/auth/interceptor.go:61-72 | Rejected credentials give 401 "Invalid credential". The `Basic realm="…"` challenge is sent exactly when the scheme is Basic. |
| Auth.SplitAt | interceptor/auth/interceptor.go:52 | SplitN at the first space gives back the scheme and the credential. |
| Auth.RejectedApiKey | interceptor/auth/interceptor.go:73-83 | A rejected API key gives 401 "Invalid X-API-Key". |
| Auth.Missing | interceptor/auth/interceptor.go:84-103 | With neither header: status 401. The message lists "Basic Auth" (with the challenge) when basic accounts exist, then "X-API-Key" when a key is configured, comma-joined in brackets. |
| Secure.Handle | interceptor/secure/interceptor.go:23-75 | The entry name is stored and the decision's writes are applied. The chain is always called. |
| Secure.WriteIf | interceptor/secure/interceptor.go:34-46 | One conditional Set equals its one-element or empty write list. |
| Secure.WriteHsts | interceptor/secure/interceptor.go:48-58 | HSTS is written only for TLS or X-Forwarded-Proto "https" with a non-zero max-age, and the value is the formatted string. |
| Secure.WriteHeaders | interceptor/secure/interceptor.go:33-72 | The whole straight-line sequence equals the specification write list. |
| Secure.WriteBasic | interceptor/secure/interceptor.go:33-46 | The XSS, nosniff and frame-options writes equal their list. |
| Secure.WriteCsp | interceptor/secure/interceptor.go:60-67 | The CSP writes equal their list. |
| Secure.HeaderValues | interceptor/secure/interceptor.go:33-72 | Each of the seven headers is written exactly when its condition holds, with its value. Every other name is untouched. |
| Secure.BasicValues | interceptor/secure/interceptor.go:33-46 | The value of every header name after the three basic writes. |
| Secure.PolicyValues | interceptor/secure/interceptor.go:60-72 | The value of every header name after the CSP and Referrer-Policy writes. |
| Secure.CspExclusive | interceptor/secure/interceptor.go:61-67 | With a policy, CSPReportOnly chooses the report-only header and leaves the other untouched. Otherwise Content-Security-Policy is set and report-only is untouched. |
| Secure.HstsRoundTrip | interceptor/secure/interceptor.go:50-57 | The HSTS value reads back as exactly the configured max-age, includeSubdomains and preload flags (section 6.1 of RFC 6797). |
| Jwt.RunExtractors | interceptor/jwt/interceptor.go:32-41 | The loop leaves the pair (auth, err) of the specification function Extract. |
| Jwt.FirstSuccessWins | interceptor/jwt/interceptor.go:34-40 | The first extractor without error supplies the token. |
| Jwt.AllFail | interceptor/jwt/interceptor.go:34-43 | When every extractor fails, the last one's error is reported. |
| Jwt.ExtractErrIff | interceptor/jwt/interceptor.go:32-43 | An error is reported exactly when there are extractors and all of them fail. |
| Jwt.Handle | interceptor/jwt/interceptor.go:24-66 | The entry name is stored. The 401 body is written on failure, and the token is stored under "fiberJwt" on success, as the decision describes. |
| Jwt.Outcomes | interceptor/jwt/interceptor.go:27-65 | The chain is called exactly when the request is skipped, or extraction succeeds and the token parses. Every other request gets 401 "invalid or expired jwt" with the error as the one detail. |
| Jwt.NoExtractors | interceptor/jwt/interceptor.go:32-52 | With no extractors, the empty auth string goes to ParseTokenFunc. |
| Prom.ApplyOption | interceptor/metrics/prom/options.go:198-217 | An empty name or type, or a nil registerer, leaves the current value. Each option touches only its own fields. |
| Prom.NewMetricsSet | interceptor/metrics/prom/options.go:50-175 | The namespace and subsystem are the app name and entry name with each "-" turned into "_" and every other character kept. The set holds the summary elapsedNano and the counters errors and resCode. |
| Prom.ApplyOptionsAppend | interceptor/metrics/prom/options.go:166-168 | Options apply in order. |
| Prom.EmptyOptionsKeepDefaults | interceptor/metrics/prom/options.go:160-217 | Options whose arguments are all empty or nil keep the defaults. |
| Prom.LaterNameWins | interceptor/metrics/prom/options.go:198-217 | A non-empty entry name overrides every earlier one and stays, whatever follows, unless a later option gives another non-empty name. |
| Prom.NameKept | interceptor/metrics/prom/options.go:198-217 | Options that give no non-empty name keep the entry name. |
| Prom.Register | interceptor/metrics/prom/options.go:177-179 | A registered name keeps its set. A new name gets the new set, and no other entry changes. |
| Prom.FirstRegistrationWins | interceptor/metrics/prom/options.go:177-179 | Over any run of registrations, a name maps to the first set registered under it. |
| Prom.RegisteredStays | interceptor/metrics/prom/options.go:177-179 | A registered name is never replaced. |
| Prom.PromPackage.NewOptionSet | interceptor/metrics/prom/options.go:159-184 | The loop builds the set of Construct. The registry becomes Register(old registry, set), and every set stays filed under its own name. |
| Prom.PromPackage.GetOptionSet | interceptor/metrics/prom/options.go:220-233 | Nil for a nil context. Otherwise the set exists exactly when the context's entry name is registered; that name is "" when missing or not a string. |
| Prom.PromPackage.GetServerMetricsSet | interceptor/metrics/prom/options.go:92-98 | A metrics set comes back exactly when an option set is found, and it is a registered one. |
| Prom.PromPackage.GetValues | interceptor/metrics/prom/options.go:111-141 | Always 13 values. Slots 0 and 1 are the entry name and type when the set is found, else "". Slot 11 is "fiber". Slots 9 and 10 are the method and path, and slot 12 parses back to the status; all three are "" for a nil context. |
| Prom.PromPackage.ListServerMetricsSets | interceptor/metrics/prom/options.go:101-108 | One metrics set per registered name, each registered set's metrics listed. |
| Prom.PromPackage.ClearAllMetrics | interceptor/metrics/prom/options.go:144-152 | The registry ends up empty. |
| Prom.LabelsAligned | interceptor/metrics/prom/options.go:19-138 | Each of the 13 label slots holds the value its DefaultLabelKeys name announces: entry name and type from the option set found, or "" when none is; realm, region, az, domain, instance, appVersion and appName from the environment; method, path and status code from the context, or "" for a nil context; "fiber" as the type. |
| Prom.TaggedLookup | interceptor/metrics/prom/options.go:220-233 | A context tagged with a registered name finds the set filed under it. |
| Boot.BuildChain | boot/fiber_entry.go:183-258 | The twelve conditional appends, in the source's order, yield exactly Chain(flags). |
| Boot.AppendObservers | boot/fiber_entry.go:188-210 | Logging, panic, prom and trace are appended as the flags say. |
| Boot.AppendGuards | boot/fiber_entry.go:212-234 | Jwt, secure, csrf and cors are appended as the flags say. |
| Boot.AppendPolicies | boot/fiber_entry.go:236-258 | Meta, auth, timeout and rate limit are appended as the flags say. |
| Boot.PanicFirstAfterLogging | boot/fiber_entry.go:188-197 | The panic middleware is always present. It is first unless logging is on, in which case logging is first and panic second. |
| Boot.ChainLength | boot/fiber_entry.go:183-258 | The chain's length is 1 + the number of enabled optional middlewares. |
| Boot.ChainMembers | boot/fiber_entry.go:183-258 | A middleware is in the chain exactly when it is built in and its flag is set (panic always). |
| Boot.ChainOrdered | boot/fiber_entry.go:183-258 | The chain follows the fixed order logging, panic, prom, trace, jwt, secure, csrf, cors, meta, auth, timeout, ratelimit, and holds no middleware twice. |
| Boot.FilterLength | boot/fiber_entry.go:183-258 | The filtered prefix has one element per enabled middleware in it. |
| Boot.FilterPrefix | boot/fiber_entry.go:183-258 | Appending never reorders: a shorter filtered prefix is a prefix of a longer one. |
| Boot.FilterMembers | boot/fiber_entry.go:183-258 | Membership in a filtered prefix means being in that prefix and enabled. |
| Boot.FilterRanked | boot/fiber_entry.go:183-258 | Filtering keeps the canonical order. |
| Boot.FinalName | boot/fiber_entry.go:295-297 | A non-empty name is kept. An empty name becomes "fiber-" followed by decimal digits that parse back to the port. |
| Boot.ApplyEntryOptionsAppend | boot/fiber_entry.go:291-293 | Options apply in order. |
| Boot.LaterOptionWins | boot/fiber_entry.go:291-760 | Of two options for the same field (WithMiddleware aside), the later decides that field, with any options before, between and after it, so long as none after it writes the field; the earlier one has no effect on it. |
| Boot.OtherFieldsKept | boot/fiber_entry.go:667-760 | Options that write other fields leave a field as it was. |
| Boot.LastSettingDecides | boot/fiber_entry.go:291-760 | The last option writing a field (WithMiddleware aside) gives it that option's value, whatever ran before. |
| Boot.MiddlewaresAppended | boot/fiber_entry.go:723-732 | WithMiddleware appends: earlier middlewares are kept, in order, followed by every option's list. |
| Boot.PortDefault | boot/fiber_entry.go:681-686 | Options other than WithPort leave the port alone. |
| Boot.NameUntouched | boot/fiber_entry.go:667-672 | Options other than WithName leave the name alone. |
| Boot.DefaultName | boot/fiber_entry.go:282-297 | Without WithPort and WithName, an entry has port 80 and name "fiber-80". |
| Boot.BootConfig | boot/fiber_entry.go:312-323 | DisableStartupMessage is always on. A supplied config keeps its other fields. Without one, ReadTimeout and IdleTimeout are 5s. |
| Boot.BootConfigStable | boot/fiber_entry.go:312-323 | Settling an already settled config changes nothing. |
| Boot.FiberEntry.Apply | boot/fiber_entry.go:667-760 | One option closure changes the entry as ApplyEntryOption says. |
| Boot.FiberEntry.AddMiddleware | boot/fiber_entry.go:545-547 | Appends to the existing middlewares. |
| Boot.FiberEntry.SetFiberConfig | boot/fiber_entry.go:550-552 | Replaces the config. |
| Boot.FiberEntry.Bootstrap | boot/fiber_entry.go:312-329 | An existing app and its config are left untouched. Without an app, the shared config has DisableStartupMessage forced on, or a default one is created, and a new app is built from it. The middlewares are then used in order. |
| Boot.TlsFromLastCert | boot/fiber_entry.go:554-707 | The last WithCertEntry decides the registered entry's cert, whatever other options follow; an entry in that state has IsTlsEnabled exactly when that cert entry and its certificate are both non-nil. |
| Boot.RegisterFiberEntry | boot/fiber_entry.go:281-297 | A new entry with the defaults, the options run in order, then the default name: its state is Registered(opts). |
| Boot.YamlKeys | boot/fiber_entry.go:144-274 | The result has exactly the names of the enabled elements as keys. |
| Boot.YamlLastWins | boot/fiber_entry.go:144-274 | A name maps to the entry of the last enabled element that carries it. |
| Boot.ElementEntry | boot/fiber_entry.go:260-297 | An element's entry has its chain, its port, and its name (or "fiber-<port>" when the name is empty). |
| Boot.ElementMiddlewares | boot/fiber_entry.go:260-272 | The entry's middlewares are exactly the element's chain. |
| Boot.ElementNameAndPort | boot/fiber_entry.go:260-263 | The options set the element's name and port, and no later option touches them. |
| Boot.RegisterFiberEntryYaml | boot/fiber_entry.go:144-277 | The loop's map has the keys and entry states of YamlEntries: disabled elements are skipped and later names overwrite. |
| Strings.ParseNatToString | boot/fiber_entry.go:296 | The decimal form of a port parses back to it. |
| Strings.ParseIntToString | interceptor/metrics/prom/options.go:116 | strconv.Itoa's output parses back to the number. |
| Strings.SplitFirstSpace | interceptor/auth/interceptor.go:52 | SplitN(s, " ", 2) has one part exactly when there is no space. With two parts, they rejoin to s and the first holds no space. |
| Strings.ReplaceCharRemoves | interceptor/metrics/prom/options.go:170-171 | ReplaceAll removes every "-" and is idempotent. |

## Left out

- Tick's goroutine, buffered channels, `time.After` and `select` are concurrency and wall-clock time. The model starts from the race's winner. The timeout branch reads the downstream error at the moment the timer wins; that error is a parameter of `TimedOut`. Logging the panic stack is not modelled.
- Logging, event logging, tracing, Loki labels and `rkentry.GlobalAppCtx.AddEntry` are side effects outside this model.
- Bootstrap is modelled up to `App.Use`. Route registration for the common service, static files, swagger and docs, `startServer`, the TLS listener, `Listen` and `Shutdown` are not modelled.
- `rkmid.AddPathToIgnoreGlobal` (boot/fiber_entry.go:186) changes state of a library outside this model.
- The middleware options the YAML element carries (`ToOptions`) live outside this model. In the model a middleware is named only by its kind.
- The lookups and registrations of the logger, event, cert, swagger, docs, prom, common-service and static-file entries are not modelled. Their results are inputs of a `BootElement`; only the nil-to-stdout fallback of the logger and event entries is modelled.
- Header names are compared exactly. fasthttp's case-insensitive header names are not modelled.
- Integers are unbounded. The uint64 port and any overflow of the CSRF cookie's expiry arithmetic are not modelled.
- A custom timeout responder may write the response; only the error it returns is modelled.
- `clearAllMetrics` unregisters each set's summary and counters in rkprom; only the emptied registry is modelled.
- `GetServerDurationMetrics`, `GetServerErrorMetrics` and `GetServerResCodeMetrics` only hand `getValues` to rkprom; they are covered by `GetServerMetricsSet` and `GetValues`.
- The Prometheus interceptor, panic, rate-limit, logging, tracing and meta interceptors, the context helpers and the `middleware/*` adapters are not part of this model.
- The `newOptionSet` and `With*` constructors of the CORS, CSRF, auth, secure and JWT interceptors are not part of this model. Each handler takes the option-set fields it reads as a `Config` value.
- The rkerror response body is modelled as code, message and details. Details are error values, or nil as `None`.
- `GetFiberEntry`, `MarshalJSON`, `String` and `RefreshFiberRoutes` are not modelled.
- The `Is*Enabled` predicates of `FiberEntry` are modelled as predicates whose definitions are the conditions of boot/fiber_entry.go:554-582. `IsTlsEnabled` is related to the options by `TlsFromLastCert`.
- Timeout.Tick: with a nil or missing table it would dereference nil; it requires the "rk-global" entry that every built set has (`ConstructShape`).
