/** The slice of the web framework the interceptors touch: the incoming request, the
    response header table with its Set/Add writes, the JSON error body, the cookie, the
    request-scoped user-context values and event counters, and what a handler returns. */
module Web {
  import opened Wrappers

  /** The request as the interceptors read it. Header and cookie maps hold the value
      Peek/Cookies would return for a name; a missing name reads as "". */
  datatype Request = Request(
    verb: string,
    path: string,
    headers: map<string, string>,
    cookies: map<string, string>,
    tls: bool)

  function Peek(r: Request, name: string): string
  {
    if name in r.headers then r.headers[name] else ""
  }

  function CookieValue(r: Request, name: string): string
  {
    if name in r.cookies then r.cookies[name] else ""
  }

  /** Response headers: every name with its values in the order they were written. */
  type Headers = map<string, seq<string>>

  /** Header.Set replaces every value of the name; Header.Add appends one. */
  datatype HeaderOp = Set(key: string, value: string) | Add(key: string, value: string)

  function Values(h: Headers, k: string): seq<string>
  {
    if k in h then h[k] else []
  }

  /** The value Header.Peek gives back: the first one written under the name, or "". */
  function First(h: Headers, k: string): string
  {
    var vs := Values(h, k);
    if |vs| == 0 then "" else vs[0]
  }

  function ApplyOp(h: Headers, op: HeaderOp): (r: Headers)
    ensures r.Keys == h.Keys + {op.key}
    ensures forall k :: k in h && k != op.key ==> r[k] == h[k]
  {
    match op
    case Set(k, v) => h[k := [v]]
    case Add(k, v) => h[k := Values(h, k) + [v]]
  }

  /** The header table after the writes `ops`, in order. */
  function Apply(h: Headers, ops: seq<HeaderOp>): Headers
    decreases |ops|
  {
    if |ops| == 0 then h else Apply(ApplyOp(h, ops[0]), ops[1..])
  }

  /** The names a sequence of writes touches. */
  function KeysOf(ops: seq<HeaderOp>): set<string>
  {
    set i | 0 <= i < |ops| :: ops[i].key
  }

  /** Writes under other names leave a header untouched. */
  lemma {:induction false} ApplyOther(h: Headers, ops: seq<HeaderOp>, k: string)
    requires k !in KeysOf(ops)
    ensures k in Apply(h, ops) <==> k in h
    ensures k in h ==> Apply(h, ops)[k] == h[k]
    decreases |ops|
  {
    if |ops| > 0 {
      assert ops[0].key in KeysOf(ops);
      assert KeysOf(ops[1..]) <= KeysOf(ops) by {
        forall x | x in KeysOf(ops[1..]) ensures x in KeysOf(ops) {
          var i :| 0 <= i < |ops[1..]| && ops[1..][i].key == x;
          assert ops[i + 1].key == x;
        }
      }
      ApplyOther(ApplyOp(h, ops[0]), ops[1..], k);
    }
  }

  /** The header names after the writes are the old ones plus those written. */
  lemma {:induction false} ApplyKeys(h: Headers, ops: seq<HeaderOp>)
    ensures Apply(h, ops).Keys == h.Keys + KeysOf(ops)
    decreases |ops|
  {
    if |ops| > 0 {
      ApplyKeys(ApplyOp(h, ops[0]), ops[1..]);
      assert KeysOf(ops) == {ops[0].key} + KeysOf(ops[1..]) by {
        forall x | x in KeysOf(ops) ensures x in {ops[0].key} + KeysOf(ops[1..]) {
          var i :| 0 <= i < |ops| && ops[i].key == x;
          if i > 0 { assert ops[1..][i - 1].key == x; }
        }
        forall x | x in KeysOf(ops[1..]) ensures x in KeysOf(ops) {
          var i :| 0 <= i < |ops[1..]| && ops[1..][i].key == x;
          assert ops[i + 1].key == x;
        }
      }
    }
  }

  lemma {:induction false} ApplyAppend(h: Headers, a: seq<HeaderOp>, b: seq<HeaderOp>)
    ensures Apply(h, a + b) == Apply(Apply(h, a), b)
    decreases |a|
  {
    if |a| > 0 {
      assert (a + b)[0] == a[0] && (a + b)[1..] == a[1..] + b;
      ApplyAppend(ApplyOp(h, a[0]), a[1..], b);
    } else {
      assert a + b == b;
    }
  }

  /** One write more at the end. */
  lemma ApplySnoc(h: Headers, ops: seq<HeaderOp>, op: HeaderOp)
    ensures Apply(h, ops + [op]) == ApplyOp(Apply(h, ops), op)
  {
    ApplyAppend(h, ops, [op]);
  }

  /** What one write does to the values of name `k`: Set replaces them, Add appends,
      a write under another name does nothing. */
  function Step(vs: seq<string>, op: HeaderOp, k: string): seq<string>
  {
    if op.key != k then vs else if op.Set? then [op.value] else vs + [op.value]
  }

  /** The values of one name after a sequence of writes, from that name's old values and
      the writes alone. */
  function Track(vs: seq<string>, ops: seq<HeaderOp>, k: string): seq<string>
    decreases |ops|
  {
    if |ops| == 0 then vs else Track(Step(vs, ops[0], k), ops[1..], k)
  }

  lemma {:induction false} ApplyValues(h: Headers, ops: seq<HeaderOp>, k: string)
    ensures Values(Apply(h, ops), k) == Track(Values(h, k), ops, k)
    decreases |ops|
  {
    if |ops| > 0 {
      ApplyValues(ApplyOp(h, ops[0]), ops[1..], k);
    }
  }

  lemma {:induction false} TrackAppend(vs: seq<string>, a: seq<HeaderOp>, b: seq<HeaderOp>, k: string)
    ensures Track(vs, a + b, k) == Track(Track(vs, a, k), b, k)
    decreases |a|
  {
    if |a| > 0 {
      assert (a + b)[0] == a[0] && (a + b)[1..] == a[1..] + b;
      TrackAppend(Step(vs, a[0], k), a[1..], b, k);
    } else {
      assert a + b == b;
    }
  }

  /** The values of a name after one write more at the end. */
  lemma TrackSnoc(vs: seq<string>, ops: seq<HeaderOp>, op: HeaderOp, k: string)
    ensures Track(vs, ops + [op], k) == Step(Track(vs, ops, k), op, k)
  {
    TrackAppend(vs, ops, [op], k);
    assert [op][1..] == [];
  }

  /** The body ctx.JSON writes for an rkerror response: code, message and details, where a
      detail is an error value and None stands for a nil error. */
  datatype ErrorBody = ErrorBody(code: int, message: string, details: seq<Option<Error>>)

  /** The error a handler returns: fiber.NewError(code) and the fiber.Err* values carry a
      status; errors from downstream handlers are opaque. */
  datatype Error = StatusError(code: int) | HandlerError(msg: string)

  /** What a handler does with the chain: `CallNext` is `return ctx.Next()` (the rest of the
      chain runs once and its error is returned); `Stop(e)` returns `e` without calling it. */
  datatype Flow = CallNext | Stop(err: Option<Error>)

  /** Values stored in the request's user context (context.WithValue). */
  datatype Value = Str(s: string) | JwtToken(raw: string) | Opaque(id: nat)

  /** A cookie as the CSRF interceptor writes it (fiber.Cookie). `sameSite` is "" when unset. */
  datatype Cookie = Cookie(
    name: string,
    value: string,
    path: string,
    domain: string,
    sameSite: string,
    expires: int,
    secure: bool,
    httpOnly: bool)

  const StatusOk := 200
  const StatusNoContent := 204
  const StatusBadRequest := 400
  const StatusUnauthorized := 401
  const StatusForbidden := 403
  const StatusRequestTimeout := 408
  const StatusInternalServerError := 500

  const MethodGet := "GET"
  const MethodHead := "HEAD"
  const MethodOptions := "OPTIONS"
  const MethodTrace := "TRACE"

  /** The request context: the request, and the response and request-scoped state that
      handlers write. */
  class Ctx {
    const request: Request
    var status: int
    var headers: Headers
    var body: Option<ErrorBody>
    var cookies: seq<Cookie>
    var userValues: map<string, Value>
    /** Counters and errors of the request-scoped observability event. */
    var counters: map<string, int>
    var eventErrors: seq<string>

    constructor (request: Request)
      ensures this.request == request
      ensures status == StatusOk && headers == map[] && body == None && cookies == []
      ensures userValues == map[] && counters == map[] && eventErrors == []
    {
      this.request := request;
      status := StatusOk;
      headers := map[];
      body := None;
      cookies := [];
      userValues := map[];
      counters := map[];
      eventErrors := [];
    }

    method SetStatus(code: int)
      modifies this`status
      ensures status == code
    {
      status := code;
    }

    method SetHeader(k: string, v: string)
      modifies this`headers
      ensures headers == ApplyOp(old(headers), Set(k, v))
    {
      headers := headers[k := [v]];
    }

    method AddHeader(k: string, v: string)
      modifies this`headers
      ensures headers == ApplyOp(old(headers), Add(k, v))
    {
      headers := headers[k := Values(headers, k) + [v]];
    }

    method Json(b: ErrorBody)
      modifies this`body
      ensures body == Some(b)
    {
      body := Some(b);
    }

    method SetCookie(c: Cookie)
      modifies this`cookies
      ensures cookies == old(cookies) + [c]
    {
      cookies := cookies + [c];
    }

    method SetUserValue(k: string, v: Value)
      modifies this`userValues
      ensures userValues == old(userValues)[k := v]
    {
      userValues := userValues[k := v];
    }

    method SetCounter(name: string, v: int)
      modifies this`counters
      ensures counters == old(counters)[name := v]
    {
      counters := counters[name := v];
    }

    method AddErr(e: string)
      modifies this`eventErrors
      ensures eventErrors == old(eventErrors) + [e]
    {
      eventErrors := eventErrors + [e];
    }
  }
}
