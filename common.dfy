/** interceptor/common.go: the context keys shared by the interceptors, the remote address
    reported for a request, and the logging filter for internal paths. */
module Common {
  import opened Wrappers

  const EntryNameKey := "fiberEntryName"
  const EntryNameValue := "fiber"
  const EntryTypeValue := "fiber"
  const AuthorizationHeaderKey := "authorization"
  const ApiKeyHeaderKey := "X-API-Key"
  const JwtTokenKey := "fiberJwt"
  const CsrfTokenKey := "fiberCsrfToken"

  /** What net.SplitHostPort makes of the socket address. When it fails, Go's
      SplitHostPort returns an empty host and an empty port along with the error. */
  datatype SplitResult = HostPort(host: string, port: string) | SplitFailed

  /** The facts GetRemoteAddressSet reads from a request that is present: the split socket
      address and the X-Forwarded-For list (ctx.IPs()). */
  datatype Connection = Connection(socket: SplitResult, forwardedIps: seq<string>)

  /** "::1" is reported as "localhost". */
  function Localhost(ip: string): string
  {
    if ip == "::1" then "localhost" else ip
  }

  /** GetRemoteAddressSet: `conn` is None when the context or its request is nil. The result
      is (ip, port). */
  function GetRemoteAddressSet(conn: Option<Connection>): (r: (string, string))
    ensures conn.None? ==> r == ("0.0.0.0", "0")
    ensures conn.Some? && conn.value.socket.SplitFailed? ==> r == ("", "")
    ensures conn.Some? && conn.value.socket.HostPort? ==> r.1 == conn.value.socket.port
    ensures conn.Some? && conn.value.socket.HostPort? && |conn.value.forwardedIps| > 0 ==>
      r.0 == Localhost(conn.value.forwardedIps[0])
    ensures conn.Some? && conn.value.socket.HostPort? && |conn.value.forwardedIps| == 0 ==>
      r.0 == Localhost(conn.value.socket.host)
    ensures r.0 != "::1"
  {
    if conn.None? then ("0.0.0.0", "0")
    else
      match conn.value.socket
      case SplitFailed => ("", "")
      case HostPort(host, port) =>
        var forwarded := conn.value.forwardedIps;
        var remoteIp :=
          if |forwarded| > 0 then
            (if forwarded[0] == "::1" then "localhost" else forwarded[0])
          else host;
        (if remoteIp == "::1" then "localhost" else remoteIp, port)
  }

  /** ShouldLog: `path` is None when the context or its request is nil. */
  function ShouldLog(path: Option<string>): (r: bool)
    ensures path.None? ==> !r
    ensures path.Some? && ("/rk/v1/assets" <= path.value || "/rk/v1/tv" <= path.value || "/sw/" <= path.value) ==> !r
    ensures path.Some? && !("/rk/v1/assets" <= path.value) && !("/rk/v1/tv" <= path.value) && !("/sw/" <= path.value) ==> r
  {
    if path.None? then false
    else if "/rk/v1/assets" <= path.value || "/rk/v1/tv" <= path.value || "/sw/" <= path.value then false
    else true
  }

  /** An internal path stays internal whatever is appended to it. */
  lemma ShouldLogExtension(p: string, suffix: string)
    requires !ShouldLog(Some(p))
    ensures !ShouldLog(Some(p + suffix))
  {
    if "/rk/v1/assets" <= p { assert "/rk/v1/assets" <= p + suffix by { PrefixExtends("/rk/v1/assets", p, suffix); } }
    else if "/rk/v1/tv" <= p { PrefixExtends("/rk/v1/tv", p, suffix); }
    else { PrefixExtends("/sw/", p, suffix); }
  }

  lemma PrefixExtends(q: string, p: string, suffix: string)
    requires q <= p
    ensures q <= p + suffix
  {
    assert (p + suffix)[..|q|] == p[..|q|];
  }
}
