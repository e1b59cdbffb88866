/** boot/fiber_entry.go: the middleware chain assembled for each enabled YAML element, the
    FiberEntry its options build, and the fiber config Bootstrap settles on. */
module Boot {
  import opened Wrappers
  import opened Strings

  const FiberEntryType := "FiberEntry"
  const DefaultDescription := "Internal RK entry which helps to bootstrap with fiber framework."
  const DefaultPort: nat := 80
  /** time.Second, in nanoseconds. */
  const Second: int := 1_000_000_000

  // ---------------------------------------------------------------- middleware chain

  /** A fiber.Handler: one of the built-in middlewares, or one the caller supplies. */
  datatype Middleware =
    | Logging | Panic | Prom | Trace | Jwt | Secure | Csrf | Cors | Meta | Auth | Timeout | RateLimit
    | Custom(id: nat)

  /** The `enabled` flag of each optional middleware of a YAML element. */
  datatype Flags = Flags(logging: bool, prom: bool, trace: bool, jwt: bool, secure: bool, csrf: bool,
                         cors: bool, meta: bool, auth: bool, timeout: bool, rateLimit: bool)

  /** The order in which the built-in middlewares are appended. */
  const CanonicalOrder: seq<Middleware> :=
    [Logging, Panic, Prom, Trace, Jwt, Secure, Csrf, Cors, Meta, Auth, Timeout, RateLimit]

  /** Whether a middleware is put in the chain; the panic middleware always is. */
  predicate Enabled(f: Flags, m: Middleware)
  {
    match m
    case Logging => f.logging
    case Panic => true
    case Prom => f.prom
    case Trace => f.trace
    case Jwt => f.jwt
    case Secure => f.secure
    case Csrf => f.csrf
    case Cors => f.cors
    case Meta => f.meta
    case Auth => f.auth
    case Timeout => f.timeout
    case RateLimit => f.rateLimit
    case Custom(_) => false
  }

  function Opt(b: bool, m: Middleware): (r: seq<Middleware>)
    ensures |r| == (if b then 1 else 0)
  {
    if b then [m] else []
  }

  /** The elements among the first `k` of `s` that the flags enable, in the order of `s`. */
  function Filter(s: seq<Middleware>, k: nat, f: Flags): seq<Middleware>
    requires k <= |s|
  {
    if k == 0 then [] else Filter(s, k - 1, f) + Opt(Enabled(f, s[k - 1]), s[k - 1])
  }

  /** The chain RegisterFiberEntryYAML builds: the canonical order, filtered by the flags. */
  function Chain(f: Flags): seq<Middleware>
  {
    Filter(CanonicalOrder, |CanonicalOrder|, f)
  }

  function One(b: bool): nat
  {
    if b then 1 else 0
  }

  /** How many optional middlewares are switched on. */
  function EnabledCount(f: Flags): nat
  {
    One(f.logging) + One(f.prom) + One(f.trace) + One(f.jwt) + One(f.secure) + One(f.csrf)
    + One(f.cors) + One(f.meta) + One(f.auth) + One(f.timeout) + One(f.rateLimit)
  }

  /** The position of a built-in middleware in CanonicalOrder. */
  function Rank(m: Middleware): nat
  {
    match m
    case Logging => 0
    case Panic => 1
    case Prom => 2
    case Trace => 3
    case Jwt => 4
    case Secure => 5
    case Csrf => 6
    case Cors => 7
    case Meta => 8
    case Auth => 9
    case Timeout => 10
    case RateLimit => 11
    case Custom(id) => 12 + id
  }

  /** The chain is appended one middleware at a time, each guarded by its flag; the
      appends are grouped four by four. */
  method BuildChain(f: Flags) returns (inters: seq<Middleware>)
    ensures inters == Chain(f)
  {
    inters := AppendObservers(f, []);
    inters := AppendGuards(f, inters);
    inters := AppendPolicies(f, inters);
  }

  /** Logging, panic, prom and trace. */
  method AppendObservers(f: Flags, inters: seq<Middleware>) returns (r: seq<Middleware>)
    requires inters == Filter(CanonicalOrder, 0, f)
    ensures r == Filter(CanonicalOrder, 4, f)
  {
    r := inters;
    if f.logging { r := r + [Logging]; }
    assert r == Filter(CanonicalOrder, 1, f);
    r := r + [Panic];
    assert r == Filter(CanonicalOrder, 2, f);
    if f.prom { r := r + [Prom]; }
    assert r == Filter(CanonicalOrder, 3, f);
    if f.trace { r := r + [Trace]; }
    assert r == Filter(CanonicalOrder, 4, f);
  }

  /** Jwt, secure, csrf and cors. */
  method AppendGuards(f: Flags, inters: seq<Middleware>) returns (r: seq<Middleware>)
    requires inters == Filter(CanonicalOrder, 4, f)
    ensures r == Filter(CanonicalOrder, 8, f)
  {
    r := inters;
    if f.jwt { r := r + [Jwt]; }
    assert r == Filter(CanonicalOrder, 5, f);
    if f.secure { r := r + [Secure]; }
    assert r == Filter(CanonicalOrder, 6, f);
    if f.csrf { r := r + [Csrf]; }
    assert r == Filter(CanonicalOrder, 7, f);
    if f.cors { r := r + [Cors]; }
    assert r == Filter(CanonicalOrder, 8, f);
  }

  /** Meta, auth, timeout and rate limit. */
  method AppendPolicies(f: Flags, inters: seq<Middleware>) returns (r: seq<Middleware>)
    requires inters == Filter(CanonicalOrder, 8, f)
    ensures r == Filter(CanonicalOrder, 12, f)
  {
    r := inters;
    if f.meta { r := r + [Meta]; }
    assert r == Filter(CanonicalOrder, 9, f);
    if f.auth { r := r + [Auth]; }
    assert r == Filter(CanonicalOrder, 10, f);
    if f.timeout { r := r + [Timeout]; }
    assert r == Filter(CanonicalOrder, 11, f);
    if f.rateLimit { r := r + [RateLimit]; }
    assert r == Filter(CanonicalOrder, 12, f);
  }

  /** The number of enabled middlewares among the first `k` of `s`. */
  function Count(s: seq<Middleware>, k: nat, f: Flags): nat
    requires k <= |s|
  {
    if k == 0 then 0 else Count(s, k - 1, f) + One(Enabled(f, s[k - 1]))
  }

  lemma {:induction false} FilterLength(s: seq<Middleware>, k: nat, f: Flags)
    requires k <= |s|
    ensures |Filter(s, k, f)| == Count(s, k, f)
  {
    if k > 0 {
      FilterLength(s, k - 1, f);
    }
  }

  /** Filtering fewer elements gives a prefix of the result. */
  lemma {:induction false} FilterPrefix(s: seq<Middleware>, j: nat, k: nat, f: Flags)
    requires j <= k <= |s|
    ensures Filter(s, j, f) <= Filter(s, k, f)
    decreases k - j
  {
    if j < k {
      FilterPrefix(s, j, k - 1, f);
    }
  }

  /** The panic middleware is always there, and only the logging middleware precedes it. */
  lemma PanicFirstAfterLogging(f: Flags)
    ensures Panic in Chain(f)
    ensures Chain(f)[0] == (if f.logging then Logging else Panic)
    ensures f.logging ==> Chain(f)[1] == Panic
  {
    var s := CanonicalOrder;
    FilterPrefix(s, 2, 12, f);
    assert Filter(s, 1, f) == Opt(f.logging, Logging);
    assert Filter(s, 2, f) == Opt(f.logging, Logging) + [Panic];
    ChainMembers(f, Panic);
  }

  /** Every enabled optional middleware adds exactly one element to the panic middleware. */
  lemma ChainLength(f: Flags)
    ensures |Chain(f)| == 1 + EnabledCount(f)
  {
    FilterLength(CanonicalOrder, 12, f);
    CountObservers(f);
    CountGuards(f);
    CountPolicies(f);
  }

  /** The counts of the chain in three groups of four: logging, panic, prom, trace; then
      jwt, secure, csrf, cors; then meta, auth, timeout, rate limit. */
  lemma CountObservers(f: Flags)
    ensures Count(CanonicalOrder, 4, f) == One(f.logging) + 1 + One(f.prom) + One(f.trace)
  {
    var s := CanonicalOrder;
    assert Count(s, 1, f) == One(f.logging);
    assert Count(s, 2, f) == Count(s, 1, f) + 1;
    assert Count(s, 3, f) == Count(s, 2, f) + One(f.prom);
    assert Count(s, 4, f) == Count(s, 3, f) + One(f.trace);
  }

  lemma CountGuards(f: Flags)
    ensures Count(CanonicalOrder, 8, f) == Count(CanonicalOrder, 4, f) + One(f.jwt) + One(f.secure) + One(f.csrf) + One(f.cors)
  {
    var s := CanonicalOrder;
    assert Count(s, 5, f) == Count(s, 4, f) + One(f.jwt);
    assert Count(s, 6, f) == Count(s, 5, f) + One(f.secure);
    assert Count(s, 7, f) == Count(s, 6, f) + One(f.csrf);
    assert Count(s, 8, f) == Count(s, 7, f) + One(f.cors);
  }

  lemma CountPolicies(f: Flags)
    ensures Count(CanonicalOrder, 12, f) == Count(CanonicalOrder, 8, f) + One(f.meta) + One(f.auth) + One(f.timeout) + One(f.rateLimit)
  {
    var s := CanonicalOrder;
    assert Count(s, 9, f) == Count(s, 8, f) + One(f.meta);
    assert Count(s, 10, f) == Count(s, 9, f) + One(f.auth);
    assert Count(s, 11, f) == Count(s, 10, f) + One(f.timeout);
    assert Count(s, 12, f) == Count(s, 11, f) + One(f.rateLimit);
  }

  /** A middleware is among the filtered ones exactly when it is among the first `k` and
      its flag is set. */
  lemma {:induction false} FilterMembers(s: seq<Middleware>, k: nat, f: Flags, m: Middleware)
    requires k <= |s|
    ensures m in Filter(s, k, f) <==> m in s[..k] && Enabled(f, m)
  {
    if k > 0 {
      FilterMembers(s, k - 1, f, m);
      assert s[..k] == s[..k - 1] + [s[k - 1]];
    }
  }

  /** A middleware is in the chain exactly when it is built in and its flag is set. */
  lemma ChainMembers(f: Flags, m: Middleware)
    ensures m in Chain(f) <==> !m.Custom? && Enabled(f, m)
  {
    FilterMembers(CanonicalOrder, |CanonicalOrder|, f, m);
    assert CanonicalOrder[..|CanonicalOrder|] == CanonicalOrder;
  }

  predicate StrictlyRanked(s: seq<Middleware>)
  {
    forall i, j :: 0 <= i < j < |s| ==> Rank(s[i]) < Rank(s[j])
  }

  /** Filtering keeps a strictly ranked sequence strictly ranked. */
  lemma {:induction false} FilterRanked(s: seq<Middleware>, k: nat, f: Flags)
    requires k <= |s| && StrictlyRanked(s)
    ensures StrictlyRanked(Filter(s, k, f))
    ensures forall m :: m in Filter(s, k, f) ==> m in s[..k]
  {
    if k > 0 {
      FilterRanked(s, k - 1, f);
      var last := s[k - 1];
      var r, o := Filter(s, k - 1, f), Opt(Enabled(f, last), last);
      assert Filter(s, k, f) == r + o;
      forall m | m in r ensures Rank(m) < Rank(last) && m in s[..k] {
        var i :| 0 <= i < k - 1 && s[..k - 1][i] == m;
        assert s[i] == m;
      }
      forall i, j | 0 <= i < j < |r + o| ensures Rank((r + o)[i]) < Rank((r + o)[j]) {
        if j >= |r| {
          assert (r + o)[i] in r;
        }
      }
    }
  }

  /** Each built-in middleware's rank is its position in the canonical order. */
  lemma CanonicalRanked()
    ensures StrictlyRanked(CanonicalOrder)
  {
    forall i, j | 0 <= i < j < |CanonicalOrder| ensures Rank(CanonicalOrder[i]) < Rank(CanonicalOrder[j]) {
      assert Rank(CanonicalOrder[i]) == i && Rank(CanonicalOrder[j]) == j by {
        RankIsPosition(i);
        RankIsPosition(j);
      }
    }
  }

  lemma RankIsPosition(i: nat)
    requires i < |CanonicalOrder|
    ensures Rank(CanonicalOrder[i]) == i
  {
    if i < 6 {
      if i == 0 {} else if i == 1 {} else if i == 2 {} else if i == 3 {} else if i == 4 {} else {}
    } else {
      if i == 6 {} else if i == 7 {} else if i == 8 {} else if i == 9 {} else if i == 10 {} else {}
    }
  }

  /** The chain follows the canonical order and therefore holds no middleware twice. */
  lemma ChainOrdered(f: Flags)
    ensures forall i, j :: 0 <= i < j < |Chain(f)| ==> Rank(Chain(f)[i]) < Rank(Chain(f)[j])
    ensures forall i, j :: 0 <= i < j < |Chain(f)| ==> Chain(f)[i] != Chain(f)[j]
  {
    CanonicalRanked();
    FilterRanked(CanonicalOrder, |CanonicalOrder|, f);
  }

  // ---------------------------------------------------------------- entry and its options

  /** A logger or event entry: a new stdout one, the shared stdout one, or a named one. */
  datatype Sink = FreshStdout | SharedStdout | Named(id: nat)

  /** A cert entry; its certificate is nil until one is loaded. */
  datatype CertEntry = CertEntry(certificate: Option<nat>)

  /** The fields of a fiber.Config that Bootstrap touches; `rest` stands for all others. */
  datatype ConfigValue = ConfigValue(disableStartupMessage: bool, readTimeout: int, idleTimeout: int, rest: nat)

  const DefaultConfig := ConfigValue(true, 5 * Second, 5 * Second, 0)

  class FiberConfig {
    var disableStartupMessage: bool
    var readTimeout: int
    var idleTimeout: int
    var rest: nat

    constructor (v: ConfigValue)
      ensures Value() == v
    {
      disableStartupMessage, readTimeout, idleTimeout, rest := v.disableStartupMessage, v.readTimeout, v.idleTimeout, v.rest;
    }

    function Value(): ConfigValue
      reads this
    {
      ConfigValue(disableStartupMessage, readTimeout, idleTimeout, rest)
    }
  }

  /** A fiber.App: fiber.New copies the config it is given, and Use appends a handler. */
  class App {
    const config: ConfigValue
    var handlers: seq<Middleware>

    constructor (config: ConfigValue)
      ensures this.config == config && handlers == []
    {
      this.config := config;
      handlers := [];
    }

    method Use(h: Middleware)
      modifies this`handlers
      ensures handlers == old(handlers) + [h]
    {
      handlers := handlers + [h];
    }
  }

  datatype EntryOption =
    | WithName(name: string)
    | WithDescription(description: string)
    | WithPort(port: nat)
    | WithLoggerEntry(logger: Sink)
    | WithEventEntry(event: Sink)
    | WithCertEntry(cert: Option<CertEntry>)
    | WithSwEntry(sw: Option<nat>)
    | WithCommonServiceEntry(commonService: Option<nat>)
    | WithMiddleware(inters: seq<Middleware>)
    | WithPromEntry(prom: Option<nat>)
    | WithStaticFileHandlerEntry(staticFile: Option<nat>)
    | WithDocsEntry(docs: Option<nat>)
    | WithFiberConfig(conf: FiberConfig?)

  /** The option-settable fields of a FiberEntry; the sub-entries are None when nil. */
  datatype EntryState = EntryState(
    name: string, entryType: string, description: string, port: nat, logger: Sink, event: Sink,
    cert: Option<CertEntry>, sw: Option<nat>, commonService: Option<nat>, prom: Option<nat>,
    staticFile: Option<nat>, docs: Option<nat>, config: FiberConfig?, middlewares: seq<Middleware>)

  const DefaultState := EntryState("", FiberEntryType, DefaultDescription, DefaultPort, FreshStdout, FreshStdout,
                                   None, None, None, None, None, None, null, [])

  /** Each option sets its own field; WithMiddleware appends instead. */
  function ApplyEntryOption(st: EntryState, o: EntryOption): EntryState
  {
    match o
    case WithName(n) => st.(name := n)
    case WithDescription(d) => st.(description := d)
    case WithPort(p) => st.(port := p)
    case WithLoggerEntry(l) => st.(logger := l)
    case WithEventEntry(e) => st.(event := e)
    case WithCertEntry(c) => st.(cert := c)
    case WithSwEntry(e) => st.(sw := e)
    case WithCommonServiceEntry(e) => st.(commonService := e)
    case WithMiddleware(ms) => st.(middlewares := st.middlewares + ms)
    case WithPromEntry(e) => st.(prom := e)
    case WithStaticFileHandlerEntry(e) => st.(staticFile := e)
    case WithDocsEntry(e) => st.(docs := e)
    case WithFiberConfig(c) => st.(config := c)
  }

  function ApplyEntryOptions(st: EntryState, opts: seq<EntryOption>): EntryState
    decreases |opts|
  {
    if |opts| == 0 then st else ApplyEntryOptions(ApplyEntryOption(st, opts[0]), opts[1..])
  }

  /** The name an entry ends up with: "fiber-<port>" when no option gave one. */
  function FinalName(st: EntryState): (r: string)
    ensures |r| > 0
    ensures |st.name| > 0 ==> r == st.name
    ensures |st.name| == 0 ==> |r| > 6 && r[..6] == "fiber-" && AllDigits(r[6..]) && ParseNat(r[6..]) == st.port
  {
    if |st.name| < 1 then
      var digits := NatToString(st.port);
      ParseNatToString(st.port);
      assert ("fiber-" + digits)[6..] == digits;
      "fiber-" + digits
    else st.name
  }

  /** What RegisterFiberEntry returns for a list of options. */
  function Registered(opts: seq<EntryOption>): EntryState
  {
    var st := ApplyEntryOptions(DefaultState, opts);
    st.(name := FinalName(st))
  }

  lemma {:induction false} ApplyEntryOptionsAppend(st: EntryState, a: seq<EntryOption>, b: seq<EntryOption>)
    ensures ApplyEntryOptions(st, a + b) == ApplyEntryOptions(ApplyEntryOptions(st, a), b)
    decreases |a|
  {
    if |a| > 0 {
      assert (a + b)[0] == a[0] && (a + b)[1..] == a[1..] + b;
      ApplyEntryOptionsAppend(ApplyEntryOption(st, a[0]), a[1..], b);
    } else {
      assert a + b == b;
    }
  }

  /** Which field an option writes. */
  function FieldOf(o: EntryOption): nat
  {
    match o
    case WithName(_) => 0
    case WithDescription(_) => 1
    case WithPort(_) => 2
    case WithLoggerEntry(_) => 3
    case WithEventEntry(_) => 4
    case WithCertEntry(_) => 5
    case WithSwEntry(_) => 6
    case WithCommonServiceEntry(_) => 7
    case WithMiddleware(_) => 8
    case WithPromEntry(_) => 9
    case WithStaticFileHandlerEntry(_) => 10
    case WithDocsEntry(_) => 11
    case WithFiberConfig(_) => 12
  }

  /** Whether two states agree on the field numbered `f`, as FieldOf numbers them. */
  predicate SameField(a: EntryState, b: EntryState, f: nat)
  {
    if f == 0 then a.name == b.name
    else if f == 1 then a.description == b.description
    else if f == 2 then a.port == b.port
    else if f == 3 then a.logger == b.logger
    else if f == 4 then a.event == b.event
    else if f == 5 then a.cert == b.cert
    else if f == 6 then a.sw == b.sw
    else if f == 7 then a.commonService == b.commonService
    else if f == 8 then a.middlewares == b.middlewares
    else if f == 9 then a.prom == b.prom
    else if f == 10 then a.staticFile == b.staticFile
    else if f == 11 then a.docs == b.docs
    else if f == 12 then a.config == b.config
    else true
  }

  /** Options that write other fields leave a field as it was. */
  lemma {:induction false} OtherFieldsKept(st: EntryState, opts: seq<EntryOption>, f: nat)
    requires forall i :: 0 <= i < |opts| ==> FieldOf(opts[i]) != f
    ensures SameField(ApplyEntryOptions(st, opts), st, f)
    decreases |opts|
  {
    if |opts| > 0 {
      OtherFieldsKept(ApplyEntryOption(st, opts[0]), opts[1..], f);
    }
  }

  /** A setting option (any but WithMiddleware) gives its field the same value whatever
      state it is applied to. */
  lemma SettingForgets(a: EntryState, b: EntryState, o: EntryOption)
    requires !o.WithMiddleware?
    ensures SameField(ApplyEntryOption(a, o), ApplyEntryOption(b, o), FieldOf(o))
  {
  }

  /** Of two options for the same field, the later one decides, whatever runs before and
      between them, so long as no option after it writes that field: the earlier one has
      no effect on the field. WithMiddleware is the exception (MiddlewaresAppended). */
  lemma LaterOptionWins(st: EntryState, pre: seq<EntryOption>, o1: EntryOption, mid: seq<EntryOption>,
                        o2: EntryOption, post: seq<EntryOption>)
    requires FieldOf(o1) == FieldOf(o2) && !o2.WithMiddleware?
    requires forall i :: 0 <= i < |post| ==> FieldOf(post[i]) != FieldOf(o2)
    ensures SameField(ApplyEntryOptions(st, pre + [o1] + mid + [o2] + post), ApplyEntryOption(st, o2), FieldOf(o2))
    ensures SameField(ApplyEntryOptions(st, pre + [o1] + mid + [o2] + post),
                      ApplyEntryOptions(st, pre + mid + [o2] + post), FieldOf(o2))
  {
    var a, b := pre + [o1] + mid, pre + mid;
    LastSettingDecides(st, a, o2, post);
    LastSettingDecides(st, b, o2, post);
  }

  /** The field of the last option that writes it is that option's value. */
  lemma LastSettingDecides(st: EntryState, a: seq<EntryOption>, o: EntryOption, post: seq<EntryOption>)
    requires !o.WithMiddleware?
    requires forall i :: 0 <= i < |post| ==> FieldOf(post[i]) != FieldOf(o)
    ensures SameField(ApplyEntryOptions(st, a + [o] + post), ApplyEntryOption(st, o), FieldOf(o))
  {
    ApplyEntryOptionsAppend(st, a + [o], post);
    ApplyEntryOptionsAppend(st, a, [o]);
    var s := ApplyEntryOptions(st, a);
    assert [o][0] == o && [o][1..] == [];
    assert ApplyEntryOptions(s, [o]) == ApplyEntryOption(s, o);
    OtherFieldsKept(ApplyEntryOption(s, o), post, FieldOf(o));
    SettingForgets(s, st, o);
  }

  /** The middleware lists of all WithMiddleware options, concatenated in order. */
  function MiddlewaresOf(opts: seq<EntryOption>): seq<Middleware>
    decreases |opts|
  {
    if |opts| == 0 then [] else (if opts[0].WithMiddleware? then opts[0].inters else []) + MiddlewaresOf(opts[1..])
  }

  /** WithMiddleware appends: earlier middlewares are kept, in their order. */
  lemma {:induction false} MiddlewaresAppended(st: EntryState, opts: seq<EntryOption>)
    ensures ApplyEntryOptions(st, opts).middlewares == st.middlewares + MiddlewaresOf(opts)
    decreases |opts|
  {
    if |opts| > 0 {
      MiddlewaresAppended(ApplyEntryOption(st, opts[0]), opts[1..]);
    }
  }

  /** Options for other fields leave the port alone. */
  lemma {:induction false} PortDefault(st: EntryState, opts: seq<EntryOption>)
    requires forall i :: 0 <= i < |opts| ==> !opts[i].WithPort?
    ensures ApplyEntryOptions(st, opts).port == st.port
    decreases |opts|
  {
    if |opts| > 0 {
      PortDefault(ApplyEntryOption(st, opts[0]), opts[1..]);
    }
  }

  /** Without WithPort the port stays 80, and without WithName the entry is named "fiber-80". */
  lemma DefaultName(opts: seq<EntryOption>)
    requires forall i :: 0 <= i < |opts| ==> !opts[i].WithPort? && !opts[i].WithName?
    ensures Registered(opts).port == 80 && Registered(opts).name == "fiber-80"
  {
    PortDefault(DefaultState, opts);
    NameUntouched(DefaultState, opts);
    assert NatToString(80) == "80" by {
      assert NatToString(8) == "8";
    }
  }

  /** Options for other fields leave the name alone. */
  lemma {:induction false} NameUntouched(st: EntryState, opts: seq<EntryOption>)
    requires forall i :: 0 <= i < |opts| ==> !opts[i].WithName?
    ensures ApplyEntryOptions(st, opts).name == st.name
    decreases |opts|
  {
    if |opts| > 0 {
      NameUntouched(ApplyEntryOption(st, opts[0]), opts[1..]);
    }
  }

  /** The settings Bootstrap hands to fiber.New: a supplied config with its
      DisableStartupMessage forced on, otherwise the default one. */
  function BootConfig(supplied: Option<ConfigValue>): (r: ConfigValue)
    ensures r.disableStartupMessage
    ensures supplied.Some? ==> (r.readTimeout == supplied.value.readTimeout
      && r.idleTimeout == supplied.value.idleTimeout && r.rest == supplied.value.rest)
    ensures supplied.None? ==> r.readTimeout == 5 * Second && r.idleTimeout == 5 * Second
  {
    if supplied.Some? then supplied.value.(disableStartupMessage := true) else DefaultConfig
  }

  /** Bootstrapping a config Bootstrap already settled changes nothing. */
  lemma BootConfigStable(supplied: Option<ConfigValue>)
    ensures BootConfig(Some(BootConfig(supplied))) == BootConfig(supplied)
  {
  }

  class FiberEntry {
    var entryName: string
    var entryType: string
    var description: string
    var port: nat
    var logger: Sink
    var event: Sink
    var cert: Option<CertEntry>
    var sw: Option<nat>
    var commonService: Option<nat>
    var prom: Option<nat>
    var staticFile: Option<nat>
    var docs: Option<nat>
    var fiberConfig: FiberConfig?
    var middlewares: seq<Middleware>
    var app: App?

    function State(): EntryState
      reads this
    {
      EntryState(entryName, entryType, description, port, logger, event, cert, sw, commonService, prom,
                 staticFile, docs, fiberConfig, middlewares)
    }

    constructor ()
      ensures State() == DefaultState && app == null
    {
      entryName, entryType, description, port := "", FiberEntryType, DefaultDescription, DefaultPort;
      logger, event := FreshStdout, FreshStdout;
      cert, sw, commonService, prom, staticFile, docs := None, None, None, None, None, None;
      fiberConfig, middlewares, app := null, [], null;
    }

    /** Runs one option closure against this entry. */
    method Apply(o: EntryOption)
      modifies this`entryName, this`description, this`port, this`logger, this`event, this`cert, this`sw,
        this`commonService, this`middlewares, this`prom, this`staticFile, this`docs, this`fiberConfig
      ensures State() == ApplyEntryOption(old(State()), o)
    {
      ghost var s0 := State();
      match o {
        case WithName(n) => entryName := n;
        case WithDescription(d) => description := d;
        case WithPort(p) => port := p;
        case WithLoggerEntry(l) => logger := l;
        case WithEventEntry(e) => event := e;
        case WithCertEntry(c) => cert := c;
        case WithSwEntry(e) => sw := e;
        case WithCommonServiceEntry(e) => commonService := e;
        case WithMiddleware(ms) => middlewares := middlewares + ms;
        case WithPromEntry(e) => prom := e;
        case WithStaticFileHandlerEntry(e) => staticFile := e;
        case WithDocsEntry(e) => docs := e;
        case WithFiberConfig(c) => fiberConfig := c;
      }
      assert State() == ApplyEntryOption(s0, o);
    }

    /** AddMiddleware appends to the existing middlewares. */
    method AddMiddleware(inters: seq<Middleware>)
      modifies this`middlewares
      ensures middlewares == old(middlewares) + inters
    {
      middlewares := middlewares + inters;
    }

    method SetFiberConfig(conf: FiberConfig?)
      modifies this`fiberConfig
      ensures fiberConfig == conf
    {
      fiberConfig := conf;
    }

    /** IsTlsEnabled: a cert entry with a loaded certificate. */
    predicate IsTlsEnabled()
      reads this
    {
      cert.Some? && cert.value.certificate.Some?
    }

    predicate IsSwEnabled() reads this { sw.Some? }
    predicate IsCommonServiceEnabled() reads this { commonService.Some? }
    predicate IsDocsEnabled() reads this { docs.Some? }
    predicate IsPromEnabled() reads this { prom.Some? }
    predicate IsStaticFileHandlerEnabled() reads this { staticFile.Some? }

    /** The part of Bootstrap that settles the app: without an app, the supplied config (if
        any) has DisableStartupMessage forced on, or the default config is created, and a
        new app is built from it. The middlewares are then used in order. */
    method Bootstrap()
      modifies this`app, this`fiberConfig, fiberConfig, app
      ensures app != null
      ensures old(app) != null ==> app == old(app) && fiberConfig == old(fiberConfig)
      ensures old(app) != null && fiberConfig != null ==> fiberConfig.Value() == old(fiberConfig.Value())
      ensures old(app) == null ==> (fresh(app) && fiberConfig != null
        && app.config == fiberConfig.Value()
        && fiberConfig.Value() == BootConfig(if old(fiberConfig) == null then None else Some(old(fiberConfig.Value()))))
      ensures old(app) == null && old(fiberConfig) != null ==> fiberConfig == old(fiberConfig)
      ensures old(app) == null && old(fiberConfig) == null ==> fresh(fiberConfig)
      ensures app.handlers == (if old(app) == null then [] else old(app.handlers)) + middlewares
    {
      if app == null {
        if fiberConfig != null {
          fiberConfig.disableStartupMessage := true;
        } else {
          fiberConfig := new FiberConfig(DefaultConfig);
        }
        app := new App(fiberConfig.Value());
      }
      var a := app;
      ghost var before := a.handlers;
      var i := 0;
      while i < |middlewares|
        modifies a
        invariant 0 <= i <= |middlewares|
        invariant a.handlers == before + middlewares[..i]
      {
        a.Use(middlewares[i]);
        assert middlewares[..i + 1] == middlewares[..i] + [middlewares[i]];
        i := i + 1;
      }
      assert middlewares[..|middlewares|] == middlewares;
    }
  }

  /** The IsTlsEnabled of a registered entry is decided by the last WithCertEntry: TLS is on
      exactly when that cert entry and its certificate are both non-nil. */
  lemma TlsFromLastCert(entry: FiberEntry, pre: seq<EntryOption>, c: Option<CertEntry>, post: seq<EntryOption>)
    requires forall i :: 0 <= i < |post| ==> !post[i].WithCertEntry?
    ensures Registered(pre + [WithCertEntry(c)] + post).cert == c
    ensures entry.State() == Registered(pre + [WithCertEntry(c)] + post) ==>
              (entry.IsTlsEnabled() <==> c.Some? && c.value.certificate.Some?)
  {
    LastSettingDecides(DefaultState, pre, WithCertEntry(c), post);
  }

  /** RegisterFiberEntry: a default entry, the options run in order, then the default name. */
  method RegisterFiberEntry(opts: seq<EntryOption>) returns (entry: FiberEntry)
    ensures fresh(entry) && entry.State() == Registered(opts) && entry.app == null
  {
    entry := new FiberEntry();
    var i := 0;
    while i < |opts|
      invariant 0 <= i <= |opts|
      invariant ApplyEntryOptions(entry.State(), opts[i..]) == ApplyEntryOptions(DefaultState, opts)
      invariant entry.app == null
    {
      assert opts[i..][0] == opts[i] && opts[i..][1..] == opts[i + 1..];
      entry.Apply(opts[i]);
      i := i + 1;
    }
    if |entry.entryName| < 1 {
      entry.entryName := "fiber-" + NatToString(entry.port);
    }
  }

  // ---------------------------------------------------------------- YAML registration

  /** One `fiber` element of the boot YAML. The logger, event and cert entries are the
      results of looking their names up (None when nil); the other sub-entries are the
      results of registering them. */
  datatype BootElement = BootElement(
    enabled: bool, name: string, port: nat, description: string,
    logger: Option<nat>, event: Option<nat>, cert: Option<CertEntry>,
    sw: Option<nat>, docs: Option<nat>, prom: Option<nat>, commonService: Option<nat>,
    staticFile: Option<nat>, flags: Flags)

  /** A missing logger or event entry falls back to the shared stdout one. */
  function OrStdout(e: Option<nat>): Sink
  {
    if e.None? then SharedStdout else Named(e.value)
  }

  /** The options RegisterFiberEntryYAML passes for an element. */
  function ElementOptions(e: BootElement): seq<EntryOption>
  {
    [WithName(e.name), WithDescription(e.description), WithPort(e.port),
     WithLoggerEntry(OrStdout(e.logger)), WithEventEntry(OrStdout(e.event)), WithCertEntry(e.cert),
     WithPromEntry(e.prom), WithDocsEntry(e.docs), WithCommonServiceEntry(e.commonService),
     WithSwEntry(e.sw), WithStaticFileHandlerEntry(e.staticFile), WithMiddleware(Chain(e.flags))]
  }

  /** The result map of RegisterFiberEntryYAML, keyed by the element's own name. */
  function YamlEntries(els: seq<BootElement>): map<string, EntryState>
    decreases |els|
  {
    if |els| == 0 then map[]
    else
      var m := YamlEntries(els[..|els| - 1]);
      var e := els[|els| - 1];
      if e.enabled then m[e.name := Registered(ElementOptions(e))] else m
  }

  /** Exactly the names of the enabled elements are keys. */
  lemma {:induction false} YamlKeys(els: seq<BootElement>)
    ensures YamlEntries(els).Keys == set e | e in els && e.enabled :: e.name
    decreases |els|
  {
    if |els| > 0 {
      YamlKeys(els[..|els| - 1]);
      assert els == els[..|els| - 1] + [els[|els| - 1]];
    }
  }

  /** A name maps to the entry of the last enabled element that carries it. */
  lemma {:induction false} YamlLastWins(els: seq<BootElement>, i: nat)
    requires i < |els| && els[i].enabled
    requires forall j :: i < j < |els| && els[j].enabled ==> els[j].name != els[i].name
    ensures els[i].name in YamlEntries(els)
    ensures YamlEntries(els)[els[i].name] == Registered(ElementOptions(els[i]))
    decreases |els|
  {
    if i < |els| - 1 {
      YamlLastWins(els[..|els| - 1], i);
    }
  }

  /** The entry built for an enabled element has its chain, its port and its name (or the
      default name when the element has none). */
  lemma ElementEntry(e: BootElement)
    ensures var st := Registered(ElementOptions(e));
      && st.middlewares == Chain(e.flags) && st.port == e.port
      && st.name == (if e.name == "" then "fiber-" + NatToString(e.port) else e.name)
  {
    ElementMiddlewares(e);
    ElementNameAndPort(e);
  }

  /** The only WithMiddleware option of an element carries its chain. */
  lemma ElementMiddlewares(e: BootElement)
    ensures ApplyEntryOptions(DefaultState, ElementOptions(e)).middlewares == Chain(e.flags)
  {
    var opts := ElementOptions(e);
    MiddlewaresAppended(DefaultState, opts);
    assert MiddlewaresOf(opts) == Chain(e.flags) by {
      assert opts[11] == WithMiddleware(Chain(e.flags));
      assert opts[11..][1..] == [];
      var k := 11;
      while k > 0
        invariant 0 <= k <= 11
        invariant MiddlewaresOf(opts[k..]) == Chain(e.flags)
      {
        assert opts[k - 1..][1..] == opts[k..];
        k := k - 1;
      }
    }
  }

  /** The first three options set name and port, and no later option touches them. */
  lemma ElementNameAndPort(e: BootElement)
    ensures var st := ApplyEntryOptions(DefaultState, ElementOptions(e));
      st.port == e.port && st.name == e.name
  {
    var opts := ElementOptions(e);
    var d := DefaultState;
    var s3 := d.(name := e.name, description := e.description, port := e.port);
    assert ApplyEntryOptions(d, opts) == ApplyEntryOptions(s3, opts[3..]) by {
      var s1 := ApplyEntryOption(d, WithName(e.name));
      var s2 := ApplyEntryOption(s1, WithDescription(e.description));
      assert ApplyEntryOption(s2, WithPort(e.port)) == s3;
      assert opts[0] == WithName(e.name) && opts[1] == WithDescription(e.description) && opts[2] == WithPort(e.port);
      assert ApplyEntryOptions(d, opts) == ApplyEntryOptions(s1, opts[1..]);
      assert opts[1..][0] == opts[1] && opts[1..][1..] == opts[2..];
      assert ApplyEntryOptions(s1, opts[1..]) == ApplyEntryOptions(s2, opts[2..]);
      assert opts[2..][0] == opts[2] && opts[2..][1..] == opts[3..];
      assert ApplyEntryOptions(s2, opts[2..]) == ApplyEntryOptions(s3, opts[3..]);
    }
    forall i | 0 <= i < |opts[3..]| ensures !opts[3..][i].WithName? && !opts[3..][i].WithPort? {
      assert opts[3..][i] == opts[i + 3];
    }
    NameUntouched(s3, opts[3..]);
    PortDefault(s3, opts[3..]);
  }

  /** RegisterFiberEntryYAML: every enabled element gets a chain and an entry, filed under
      the element's name. */
  method RegisterFiberEntryYaml(els: seq<BootElement>) returns (res: map<string, FiberEntry>)
    ensures res.Keys == YamlEntries(els).Keys
    ensures forall n :: n in res ==> res[n].State() == YamlEntries(els)[n]
  {
    res := map[];
    var i := 0;
    while i < |els|
      invariant 0 <= i <= |els|
      invariant res.Keys == YamlEntries(els[..i]).Keys
      invariant forall n :: n in res ==> res[n].State() == YamlEntries(els[..i])[n]
    {
      assert els[..i + 1][..i] == els[..i];
      var e := els[i];
      if e.enabled {
        var inters := BuildChain(e.flags);
        var entry := RegisterFiberEntry(
          [WithName(e.name), WithDescription(e.description), WithPort(e.port),
           WithLoggerEntry(OrStdout(e.logger)), WithEventEntry(OrStdout(e.event)), WithCertEntry(e.cert),
           WithPromEntry(e.prom), WithDocsEntry(e.docs), WithCommonServiceEntry(e.commonService),
           WithSwEntry(e.sw), WithStaticFileHandlerEntry(e.staticFile), WithMiddleware(inters)]);
        res := res[e.name := entry];
      }
      i := i + 1;
    }
    assert els[..|els|] == els;
  }
}
