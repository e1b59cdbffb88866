/** interceptor/timeout/options.go: the per-path timeout table, the package-level global
    timeout that options may change, the registry of option sets, and the three outcomes
    of the race between the downstream chain and the timer. */
module Timeout {
  import opened Wrappers
  import opened Web
  import Common

  /** The key of the entry used when no path matches. No normalised path equals it. */
  const Global := "rk-global"

  /** time.Duration counts nanoseconds. */
  const Second := 1_000_000_000
  const DefaultTimeout := 5 * Second

  /** A non-nil response handler for the timeout case: the package default, which
      returns nil, or one the user supplied. */
  datatype Responder = DefaultResponse | Custom(id: nat)

  datatype TimeoutRk = TimeoutRk(timeout: int, response: Responder)

  datatype OptionSet = OptionSet(entryName: string, entryType: string, timeouts: map<string, TimeoutRk>)

  /** The Option closures; None for a response handler stands for nil. */
  datatype TimeoutOption =
    | WithEntryNameAndType(entryName: string, entryType: string)
    | WithTimeoutAndResp(timeout: int, resp: Option<Responder>)
    | WithTimeoutAndRespByPath(path: string, timeout: int, resp: Option<Responder>)

  function NormalisePath(path: string): (r: string)
    ensures |r| > 0 && r[0] == '/'
    ensures |path| > 0 && path[0] == '/' ==> r == path
    ensures r != Global
  {
    if "/" <= path then path else "/" + path
  }

  function NormaliseTimeout(d: int): int
  {
    if d == 0 then DefaultTimeout else d
  }

  function NormaliseResponse(resp: Option<Responder>): Responder
  {
    if resp.None? then DefaultResponse else resp.value
  }

  /** The option set being built together with the package-level global timeout: options
      may change either. */
  datatype Building = Building(optSet: OptionSet, global: TimeoutRk)

  function ApplyOption(b: Building, opt: TimeoutOption): Building
  {
    match opt
    case WithEntryNameAndType(n, t) => b.(optSet := b.optSet.(entryName := n, entryType := t))
    case WithTimeoutAndResp(d, resp) => b.(global := TimeoutRk(NormaliseTimeout(d), NormaliseResponse(resp)))
    case WithTimeoutAndRespByPath(p, d, resp) =>
      b.(optSet := b.optSet.(timeouts := b.optSet.timeouts[NormalisePath(p) := TimeoutRk(NormaliseTimeout(d), NormaliseResponse(resp))]))
  }

  /** Options are applied in order. */
  function ApplyOptions(b: Building, opts: seq<TimeoutOption>): Building
    decreases |opts|
  {
    if |opts| == 0 then b else ApplyOptions(ApplyOption(b, opts[0]), opts[1..])
  }

  const InitialSet := OptionSet(Common.EntryNameValue, Common.EntryTypeValue, map[])

  /** newOptionSet from the global timeout it finds: the set it returns and the global it
      leaves behind. The global entry is copied into the set after every option ran. */
  function Construct(opts: seq<TimeoutOption>, global: TimeoutRk): Building
  {
    var b := ApplyOptions(Building(InitialSet, global), opts);
    b.(optSet := b.optSet.(timeouts := b.optSet.timeouts[Global := b.global]))
  }

  /** getTimeoutRk: the exact-match entry, otherwise the global one; None is Go's nil. */
  function GetTimeoutRk(optSet: OptionSet, path: string): (r: Option<TimeoutRk>)
    ensures path in optSet.timeouts ==> r == Some(optSet.timeouts[path])
    ensures path !in optSet.timeouts && Global in optSet.timeouts ==> r == Some(optSet.timeouts[Global])
    ensures r.None? <==> path !in optSet.timeouts && Global !in optSet.timeouts
  {
    if path in optSet.timeouts then Some(optSet.timeouts[path])
    else if Global in optSet.timeouts then Some(optSet.timeouts[Global])
    else None
  }

  predicate PathKeys(optSet: OptionSet)
  {
    forall k :: k in optSet.timeouts ==> |k| > 0 && k[0] == '/'
  }

  predicate NonZero(optSet: OptionSet)
  {
    forall k :: k in optSet.timeouts ==> optSet.timeouts[k].timeout != 0
  }

  lemma {:induction false} ApplyOptionsInvariant(b: Building, opts: seq<TimeoutOption>)
    requires PathKeys(b.optSet) && NonZero(b.optSet) && b.global.timeout != 0
    ensures PathKeys(ApplyOptions(b, opts).optSet) && NonZero(ApplyOptions(b, opts).optSet)
    ensures ApplyOptions(b, opts).global.timeout != 0
    decreases |opts|
  {
    if |opts| > 0 {
      ApplyOptionsInvariant(ApplyOption(b, opts[0]), opts[1..]);
    }
  }

  /** After construction the table holds the global entry, every other key is a path
      starting with "/", and no timeout is zero (given a non-zero global to start from). */
  lemma ConstructShape(opts: seq<TimeoutOption>, global: TimeoutRk)
    requires global.timeout != 0
    ensures var optSet := Construct(opts, global).optSet;
      && Global in optSet.timeouts
      && (forall k :: k in optSet.timeouts && k != Global ==> |k| > 0 && k[0] == '/')
      && NonZero(optSet)
    ensures Construct(opts, global).global.timeout != 0
  {
    ApplyOptionsInvariant(Building(InitialSet, global), opts);
  }

  /** A constructed option set answers every path. */
  lemma LookupNeverNil(opts: seq<TimeoutOption>, global: TimeoutRk, path: string)
    ensures GetTimeoutRk(Construct(opts, global).optSet, path).Some?
  {
  }

  lemma {:induction false} ApplyOptionsAppend(b: Building, a: seq<TimeoutOption>, c: seq<TimeoutOption>)
    ensures ApplyOptions(b, a + c) == ApplyOptions(ApplyOptions(b, a), c)
    decreases |a|
  {
    if |a| > 0 {
      assert (a + c)[0] == a[0] && (a + c)[1..] == a[1..] + c;
      ApplyOptionsAppend(ApplyOption(b, a[0]), a[1..], c);
    } else {
      assert a + c == c;
    }
  }

  /** A path registered last is answered with that registration, whatever came before,
      with a zero timeout read as 5s and a nil handler as the default. */
  /** Whether an option registers a timeout for the normalised path `p`. */
  predicate RegistersPath(o: TimeoutOption, p: string)
  {
    o.WithTimeoutAndRespByPath? && NormalisePath(o.path) == p
  }

  /** Options that do not register `p` leave its entry as it was. */
  lemma {:induction false} PathEntryKept(b: Building, opts: seq<TimeoutOption>, p: string)
    requires p in b.optSet.timeouts
    requires forall i :: 0 <= i < |opts| ==> !RegistersPath(opts[i], p)
    ensures p in ApplyOptions(b, opts).optSet.timeouts
    ensures ApplyOptions(b, opts).optSet.timeouts[p] == b.optSet.timeouts[p]
    decreases |opts|
  {
    if |opts| > 0 {
      PathEntryKept(ApplyOption(b, opts[0]), opts[1..], p);
    }
  }

  /** The last registration for a path decides what getTimeoutRk answers for it, whatever
      ran before it and whatever other options follow: a zero timeout reads as 5s and a
      nil responder as the default one. */
  lemma LastRegistrationWins(pre: seq<TimeoutOption>, post: seq<TimeoutOption>, global: TimeoutRk,
                             path: string, d: int, resp: Option<Responder>)
    requires forall i :: 0 <= i < |post| ==> !RegistersPath(post[i], NormalisePath(path))
    ensures GetTimeoutRk(Construct(pre + [WithTimeoutAndRespByPath(path, d, resp)] + post, global).optSet, NormalisePath(path))
      == Some(TimeoutRk(if d == 0 then DefaultTimeout else d, if resp.None? then DefaultResponse else resp.value))
  {
    var o := WithTimeoutAndRespByPath(path, d, resp);
    var b0 := Building(InitialSet, global);
    ApplyOptionsAppend(b0, pre + [o], post);
    ApplyOptionsAppend(b0, pre, [o]);
    var b1 := ApplyOptions(b0, pre);
    assert [o][0] == o && [o][1..] == [];
    assert ApplyOptions(b1, [o]) == ApplyOption(b1, o);
    PathEntryKept(ApplyOption(b1, o), post, NormalisePath(path));
  }

  /** A zero duration is the same configuration as the default 5 seconds. */
  lemma ZeroIsDefault(pre: seq<TimeoutOption>, post: seq<TimeoutOption>, path: string, resp: Option<Responder>, global: TimeoutRk)
    ensures Construct(pre + [WithTimeoutAndRespByPath(path, 0, resp)] + post, global)
         == Construct(pre + [WithTimeoutAndRespByPath(path, DefaultTimeout, resp)] + post, global)
    ensures Construct(pre + [WithTimeoutAndResp(0, resp)] + post, global)
         == Construct(pre + [WithTimeoutAndResp(DefaultTimeout, resp)] + post, global)
  {
    var b := Building(InitialSet, global);
    var o1, o2 := WithTimeoutAndRespByPath(path, 0, resp), WithTimeoutAndRespByPath(path, DefaultTimeout, resp);
    ApplyOptionsAppend(b, pre + [o1], post);
    ApplyOptionsAppend(b, pre + [o2], post);
    ApplyOptionsAppend(b, pre, [o1]);
    ApplyOptionsAppend(b, pre, [o2]);
    var g1, g2 := WithTimeoutAndResp(0, resp), WithTimeoutAndResp(DefaultTimeout, resp);
    ApplyOptionsAppend(b, pre + [g1], post);
    ApplyOptionsAppend(b, pre + [g2], post);
    ApplyOptionsAppend(b, pre, [g1]);
    ApplyOptionsAppend(b, pre, [g2]);
  }

  predicate SetsGlobal(opt: TimeoutOption)
  {
    opt.WithTimeoutAndResp?
  }

  lemma {:induction false} GlobalKept(b: Building, opts: seq<TimeoutOption>)
    requires forall i :: 0 <= i < |opts| ==> !SetsGlobal(opts[i])
    ensures ApplyOptions(b, opts).global == b.global
    decreases |opts|
  {
    if |opts| > 0 {
      GlobalKept(ApplyOption(b, opts[0]), opts[1..]);
    }
  }

  /** The global timeout is package state: what one newOptionSet call leaves behind is the
      global entry of a later set whose options do not set it again. */
  lemma GlobalCarriesOver(first: seq<TimeoutOption>, later: seq<TimeoutOption>, global: TimeoutRk)
    requires forall i :: 0 <= i < |later| ==> !SetsGlobal(later[i])
    ensures var left := Construct(first, global).global;
      Construct(later, left).optSet.timeouts[Global] == left && Construct(later, left).global == left
  {
    GlobalKept(Building(InitialSet, Construct(first, global).global), later);
  }

  /** The abstract winner of the race in Tick. `TimedOut` carries the downstream error as
      the timeout branch reads it at that moment. */
  datatype RaceOutcome = Finished(err: Option<Error>) | Panicked(value: string) | TimedOut(err: Option<Error>)

  /** The details of the timeout body: the downstream error when non-nil, then the custom
      responder's error when non-nil. The default responder returns nil. */
  function TimeoutDetails(rk: TimeoutRk, downstream: Option<Error>, customErr: Option<Error>): (r: seq<Option<Error>>)
    ensures forall i :: 0 <= i < |r| ==> r[i].Some?
    ensures |r| == (if downstream.Some? then 1 else 0) + (if rk.response.Custom? && customErr.Some? then 1 else 0)
    ensures downstream.Some? ==> r[0] == downstream
    ensures rk.response.Custom? && customErr.Some? ==> r[|r| - 1] == customErr
  {
    var responderErr := if rk.response.DefaultResponse? then None else customErr;
    (if downstream.Some? then [downstream] else []) + (if responderErr.Some? then [responderErr] else [])
  }

  /** Tick after the race: `customErr` is what a custom responder returns for this request. */
  method Tick(optSet: OptionSet, ctx: Ctx, outcome: RaceOutcome, customErr: Option<Error>) returns (err: Option<Error>)
    requires Global in optSet.timeouts
    modifies ctx`status, ctx`body, ctx`counters, ctx`eventErrors
    ensures outcome.Finished? ==>
      && err == outcome.err
      && unchanged(ctx`status, ctx`body, ctx`counters, ctx`eventErrors)
    ensures outcome.Panicked? ==>
      && err == None
      && ctx.status == StatusInternalServerError
      && ctx.body == Some(ErrorBody(StatusInternalServerError, outcome.value, []))
      && ctx.counters == old(ctx.counters)["panic" := 1]
      && ctx.eventErrors == old(ctx.eventErrors) + [outcome.value]
    ensures outcome.TimedOut? ==>
      && err == None
      && ctx.status == StatusRequestTimeout
      && ctx.body == Some(ErrorBody(StatusRequestTimeout, "Request timed out!",
                        TimeoutDetails(GetTimeoutRk(optSet, ctx.request.path).value, outcome.err, customErr)))
      && ctx.counters == old(ctx.counters)["timeout" := 1]
      && ctx.eventErrors == old(ctx.eventErrors)
  {
    var rk := GetTimeoutRk(optSet, ctx.request.path).value;
    match outcome
    case Finished(e) =>
      err := e;
    case Panicked(recv) =>
      ctx.SetCounter("panic", 1);
      ctx.AddErr(recv);
      ctx.SetStatus(StatusInternalServerError);
      ctx.Json(ErrorBody(StatusInternalServerError, recv, []));
      err := None;
    case TimedOut(e) =>
      ctx.SetCounter("timeout", 1);
      var details: seq<Option<Error>> := [];
      if e.Some? {
        details := details + [e];
      }
      var responderErr := if rk.response.DefaultResponse? then None else customErr;
      if responderErr.Some? {
        details := details + [responderErr];
      }
      assert details == TimeoutDetails(rk, e, customErr);
      ctx.Json(ErrorBody(StatusRequestTimeout, "Request timed out!", details));
      ctx.SetStatus(StatusRequestTimeout);
      err := None;
  }

  /** The package-level state: the global timeout and the registry of option sets by
      entry name. */
  class TimeoutPackage {
    var globalTimeoutRk: TimeoutRk
    var optionsMap: map<string, OptionSet>

    ghost predicate Valid()
      reads this
    {
      globalTimeoutRk.timeout != 0
    }

    constructor ()
      ensures Valid()
      ensures globalTimeoutRk == TimeoutRk(DefaultTimeout, DefaultResponse) && optionsMap == map[]
    {
      globalTimeoutRk := TimeoutRk(DefaultTimeout, DefaultResponse);
      optionsMap := map[];
    }

    /** newOptionSet: runs the options against a fresh set and this package's global,
        copies the global into the set, and registers the set unless its entry name
        already has one. */
    method NewOptionSet(opts: seq<TimeoutOption>) returns (optSet: OptionSet)
      requires Valid()
      modifies this
      ensures Valid()
      ensures optSet == Construct(opts, old(globalTimeoutRk)).optSet
      ensures globalTimeoutRk == Construct(opts, old(globalTimeoutRk)).global
      ensures optionsMap == if optSet.entryName in old(optionsMap) then old(optionsMap)
                            else old(optionsMap)[optSet.entryName := optSet]
    {
      var s := InitialSet;
      var i := 0;
      while i < |opts|
        invariant 0 <= i <= |opts|
        invariant ApplyOptions(Building(InitialSet, old(globalTimeoutRk)), opts)
               == ApplyOptions(Building(s, globalTimeoutRk), opts[i..])
        invariant optionsMap == old(optionsMap)
      {
        assert opts[i..][0] == opts[i] && opts[i..][1..] == opts[i + 1..];
        match opts[i] {
          case WithEntryNameAndType(n, t) =>
            s := s.(entryName := n, entryType := t);
          case WithTimeoutAndResp(d, resp) =>
            var r := if resp.None? then DefaultResponse else resp.value;
            var timeout := if d == 0 then DefaultTimeout else d;
            globalTimeoutRk := TimeoutRk(timeout, r);
          case WithTimeoutAndRespByPath(p, d, resp) =>
            var path := NormalisePath(p);
            var r := if resp.None? then DefaultResponse else resp.value;
            var timeout := if d == 0 then DefaultTimeout else d;
            s := s.(timeouts := s.timeouts[path := TimeoutRk(timeout, r)]);
        }
        i := i + 1;
      }
      ApplyOptionsInvariant(Building(InitialSet, old(globalTimeoutRk)), opts);
      s := s.(timeouts := s.timeouts[Global := globalTimeoutRk]);
      if s.entryName !in optionsMap {
        optionsMap := optionsMap[s.entryName := s];
      }
      optSet := s;
    }
  }
}
