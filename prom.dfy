/** interceptor/metrics/prom/options.go: the label vector of the request metrics and the
    package-level registry of option sets, keyed by entry name. */
module Prom {
  import opened Wrappers
  import opened Strings
  import opened Web
  import Common

  const DefaultLabelKeys: seq<string> := [
    "entryName", "entryType", "realm", "region", "az", "domain", "instance",
    "appVersion", "appName", "restMethod", "restPath", "type", "resCode"]

  const ElapsedNano := "elapsedNano"
  const Errors := "errors"
  const ResCode := "resCode"

  /** A prometheus.Registerer: the process default or one the caller supplies. */
  datatype Registerer = DefaultRegisterer | CustomRegisterer(id: nat)

  /** The rkprom metrics set of an option set, with the metric names initMetrics registers:
      one summary and two counters, all labelled by DefaultLabelKeys. */
  datatype MetricsSet = MetricsSet(namespace: string, subsystem: string, registerer: Registerer,
                                   summaries: seq<string>, counters: seq<string>)

  /** The option set while the options run, before its metrics set exists. */
  datatype Pending = Pending(entryName: string, entryType: string, registerer: Registerer)

  datatype OptionSet = OptionSet(entryName: string, entryType: string, registerer: Registerer, metrics: MetricsSet)

  datatype PromOption =
    | WithEntryNameAndType(name: string, entryType: string)
    | WithRegisterer(registerer: Option<Registerer>)

  /** The process-wide values that fill the fixed label slots. */
  datatype AppEnv = AppEnv(realm: string, region: string, az: string, domain: string,
                           hostname: string, appVersion: string, appName: string)

  const InitialPending := Pending(Common.EntryNameValue, Common.EntryTypeValue, DefaultRegisterer)

  /** An empty name, an empty type or a nil registerer leaves the current value in place. */
  function ApplyOption(p: Pending, o: PromOption): (r: Pending)
    ensures o.WithEntryNameAndType? ==>
      r.registerer == p.registerer
      && r.entryName == (if o.name == "" then p.entryName else o.name)
      && r.entryType == (if o.entryType == "" then p.entryType else o.entryType)
    ensures o.WithRegisterer? ==>
      r.entryName == p.entryName && r.entryType == p.entryType
      && r.registerer == (if o.registerer.None? then p.registerer else o.registerer.value)
  {
    match o
    case WithEntryNameAndType(n, t) =>
      p.(entryName := if |n| > 0 then n else p.entryName, entryType := if |t| > 0 then t else p.entryType)
    case WithRegisterer(reg) =>
      if reg.Some? then p.(registerer := reg.value) else p
  }

  function ApplyOptions(p: Pending, opts: seq<PromOption>): Pending
    decreases |opts|
  {
    if |opts| == 0 then p else ApplyOptions(ApplyOption(p, opts[0]), opts[1..])
  }

  /** The metrics set newOptionSet creates: namespace and subsystem are the application
      name and the entry name with every "-" turned into "_". */
  function NewMetricsSet(p: Pending, appName: string): (m: MetricsSet)
    ensures '-' !in m.namespace && '-' !in m.subsystem
    ensures |m.namespace| == |appName| && |m.subsystem| == |p.entryName|
    ensures forall i :: 0 <= i < |appName| && appName[i] != '-' ==> m.namespace[i] == appName[i]
    ensures forall i :: 0 <= i < |p.entryName| && p.entryName[i] != '-' ==> m.subsystem[i] == p.entryName[i]
    ensures forall i :: 0 <= i < |appName| && appName[i] == '-' ==> m.namespace[i] == '_'
    ensures forall i :: 0 <= i < |p.entryName| && p.entryName[i] == '-' ==> m.subsystem[i] == '_'
    ensures m.registerer == p.registerer
    ensures m.summaries == [ElapsedNano] && m.counters == [Errors, ResCode]
  {
    ReplaceCharRemoves(appName, '-', '_');
    ReplaceCharRemoves(p.entryName, '-', '_');
    MetricsSet(ReplaceChar(appName, '-', '_'), ReplaceChar(p.entryName, '-', '_'), p.registerer,
               [ElapsedNano], [Errors, ResCode])
  }

  function Construct(opts: seq<PromOption>, appName: string): OptionSet
  {
    var p := ApplyOptions(InitialPending, opts);
    OptionSet(p.entryName, p.entryType, p.registerer, NewMetricsSet(p, appName))
  }

  lemma {:induction false} ApplyOptionsAppend(p: Pending, a: seq<PromOption>, b: seq<PromOption>)
    ensures ApplyOptions(p, a + b) == ApplyOptions(ApplyOptions(p, a), b)
    decreases |a|
  {
    if |a| > 0 {
      assert (a + b)[0] == a[0] && (a + b)[1..] == a[1..] + b;
      ApplyOptionsAppend(ApplyOption(p, a[0]), a[1..], b);
    } else {
      assert a + b == b;
    }
  }

  /** Options whose every argument is empty or nil change nothing: the defaults stay. */
  lemma {:induction false} EmptyOptionsKeepDefaults(p: Pending, opts: seq<PromOption>)
    requires forall i :: 0 <= i < |opts| ==> opts[i] == WithEntryNameAndType("", "") || opts[i] == WithRegisterer(None)
    ensures ApplyOptions(p, opts) == p
    decreases |opts|
  {
    if |opts| > 0 {
      EmptyOptionsKeepDefaults(p, opts[1..]);
    }
  }

  /** Whether an option gives a non-empty entry name. */
  predicate Names(o: PromOption)
  {
    o.WithEntryNameAndType? && o.name != ""
  }

  /** Options that give no non-empty name keep the entry name. */
  lemma {:induction false} NameKept(p: Pending, opts: seq<PromOption>)
    requires forall i :: 0 <= i < |opts| ==> !Names(opts[i])
    ensures ApplyOptions(p, opts).entryName == p.entryName
    decreases |opts|
  {
    if |opts| > 0 {
      NameKept(ApplyOption(p, opts[0]), opts[1..]);
    }
  }

  /** A later non-empty entry name overrides whatever the earlier options set, and stays
      unless a later option names the entry again. */
  lemma LaterNameWins(p: Pending, pre: seq<PromOption>, n: string, t: string, post: seq<PromOption>)
    requires n != ""
    requires forall i :: 0 <= i < |post| ==> !Names(post[i])
    ensures ApplyOptions(p, pre + [WithEntryNameAndType(n, t)] + post).entryName == n
  {
    var o := WithEntryNameAndType(n, t);
    ApplyOptionsAppend(p, pre + [o], post);
    ApplyOptionsAppend(p, pre, [o]);
    var q := ApplyOptions(p, pre);
    assert [o][0] == o && [o][1..] == [];
    assert ApplyOptions(q, [o]) == ApplyOption(q, o);
    NameKept(ApplyOption(q, o), post);
  }

  /** The entry name read back from the user context: "" when the value is missing or is
      not a string, and "" for a nil context. */
  function ContextEntryName(ctx: Ctx?): string
    reads ctx
  {
    if ctx == null then ""
    else if Common.EntryNameKey in ctx.userValues && ctx.userValues[Common.EntryNameKey].Str? then
      ctx.userValues[Common.EntryNameKey].s
    else ""
  }

  /** The registry step newOptionSet performs: a name already present keeps its set. */
  function Register(m: map<string, OptionSet>, s: OptionSet): (r: map<string, OptionSet>)
    ensures r.Keys == m.Keys + {s.entryName}
    ensures s.entryName in m ==> r == m
    ensures s.entryName !in m ==> r[s.entryName] == s
    ensures forall k :: k in m ==> r[k] == m[k]
  {
    if s.entryName in m then m else m[s.entryName := s]
  }

  function RegisterAll(m: map<string, OptionSet>, sets: seq<OptionSet>): map<string, OptionSet>
    decreases |sets|
  {
    if |sets| == 0 then m else RegisterAll(Register(m, sets[0]), sets[1..])
  }

  /** Over any sequence of registrations, a name keeps the first set registered under it. */
  lemma {:induction false} FirstRegistrationWins(m: map<string, OptionSet>, sets: seq<OptionSet>, i: nat)
    requires i < |sets| && sets[i].entryName !in m
    requires forall j :: 0 <= j < i ==> sets[j].entryName != sets[i].entryName
    ensures sets[i].entryName in RegisterAll(m, sets)
    ensures RegisterAll(m, sets)[sets[i].entryName] == sets[i]
    decreases i
  {
    if i == 0 {
      RegisteredStays(Register(m, sets[0]), sets[1..], sets[0].entryName);
    } else {
      FirstRegistrationWins(Register(m, sets[0]), sets[1..], i - 1);
    }
  }

  /** A name already registered is never replaced. */
  lemma {:induction false} RegisteredStays(m: map<string, OptionSet>, sets: seq<OptionSet>, k: string)
    requires k in m
    ensures k in RegisterAll(m, sets) && RegisterAll(m, sets)[k] == m[k]
    decreases |sets|
  {
    if |sets| > 0 {
      RegisteredStays(Register(m, sets[0]), sets[1..], k);
    }
  }

  /** The package-level optionsMap. */
  class PromPackage {
    var optionsMap: map<string, OptionSet>

    /** Every set is filed under its own entry name. */
    ghost predicate Valid()
      reads this
    {
      forall k :: k in optionsMap ==> optionsMap[k].entryName == k
    }

    constructor ()
      ensures Valid() && optionsMap == map[]
    {
      optionsMap := map[];
    }

    /** newOptionSet: runs the options in order, creates the metrics set and files the set
        unless its entry name already has one. */
    method NewOptionSet(opts: seq<PromOption>, appName: string) returns (s: OptionSet)
      requires Valid()
      modifies this
      ensures Valid()
      ensures s == Construct(opts, appName)
      ensures optionsMap == Register(old(optionsMap), s)
    {
      var p := InitialPending;
      var i := 0;
      while i < |opts|
        invariant 0 <= i <= |opts|
        invariant ApplyOptions(p, opts[i..]) == ApplyOptions(InitialPending, opts)
      {
        assert opts[i..][0] == opts[i] && opts[i..][1..] == opts[i + 1..];
        match opts[i] {
          case WithEntryNameAndType(n, t) =>
            if |n| > 0 { p := p.(entryName := n); }
            if |t| > 0 { p := p.(entryType := t); }
          case WithRegisterer(reg) =>
            if reg.Some? { p := p.(registerer := reg.value); }
        }
        i := i + 1;
      }
      var metrics := MetricsSet(ReplaceChar(appName, '-', '_'), ReplaceChar(p.entryName, '-', '_'), p.registerer,
                                [ElapsedNano], [Errors, ResCode]);
      s := OptionSet(p.entryName, p.entryType, p.registerer, metrics);
      if s.entryName !in optionsMap {
        optionsMap := optionsMap[s.entryName := s];
      }
    }

    /** getOptionSet: None for a nil context, otherwise the set filed under the context's
        entry name. */
    function GetOptionSet(ctx: Ctx?): (r: Option<OptionSet>)
      reads this, ctx
      requires Valid()
      ensures ctx == null ==> r.None?
      ensures r.Some? <==> ctx != null && ContextEntryName(ctx) in optionsMap
      ensures r.Some? ==> r.value.entryName == ContextEntryName(ctx) && r.value in optionsMap.Values
    {
      if ctx == null then None
      else
        var name := ContextEntryName(ctx);
        if name in optionsMap then Some(optionsMap[name]) else None
    }

    /** GetServerMetricsSet: the metrics set of the context's option set. */
    function GetServerMetricsSet(ctx: Ctx?): (r: Option<MetricsSet>)
      reads this, ctx
      requires Valid()
      ensures r.Some? <==> GetOptionSet(ctx).Some?
      ensures r.Some? ==> exists k :: k in optionsMap && optionsMap[k].metrics == r.value
    {
      var s := GetOptionSet(ctx);
      if s.Some? then Some(s.value.metrics) else None
    }

    /** getValues: the 13 label values, in the order of DefaultLabelKeys. */
    function GetValues(ctx: Ctx?, env: AppEnv): (r: seq<string>)
      reads this, ctx
      requires Valid()
      ensures |r| == |DefaultLabelKeys|
      ensures r[0] == (if GetOptionSet(ctx).Some? then ContextEntryName(ctx) else "")
      ensures r[1] == (if GetOptionSet(ctx).Some? then GetOptionSet(ctx).value.entryType else "")
      ensures r[11] == "fiber"
      ensures ctx == null ==> r[9] == "" && r[10] == "" && r[12] == ""
      ensures ctx != null ==> r[9] == ctx.request.verb && r[10] == ctx.request.path
      ensures ctx != null ==> ParseInt(r[12]) == Some(ctx.status)
    {
      var method_, path, resCode := if ctx == null then "" else ctx.request.verb,
                                   if ctx == null then "" else ctx.request.path,
                                   if ctx == null then "" else IntToString(ctx.status);
      var set_ := GetOptionSet(ctx);
      var entryName := if set_.Some? then set_.value.entryName else "";
      var entryType := if set_.Some? then set_.value.entryType else "";
      var values := [entryName, entryType, env.realm, env.region, env.az, env.domain, env.hostname,
                     env.appVersion, env.appName, method_, path, "fiber", resCode];
      if ctx == null then values else ParseIntToString(ctx.status); values
    }

    /** ListServerMetricsSets: one metrics set per registered entry name, in map order. */
    method ListServerMetricsSets() returns (res: seq<MetricsSet>)
      ensures |res| == |optionsMap|
      ensures forall k :: k in optionsMap ==> optionsMap[k].metrics in res
      ensures forall m :: m in res ==> exists k :: k in optionsMap && optionsMap[k].metrics == m
    {
      res := [];
      var rest := optionsMap.Keys;
      while rest != {}
        invariant rest <= optionsMap.Keys
        invariant |res| + |rest| == |optionsMap.Keys|
        invariant forall k :: k in optionsMap.Keys - rest ==> optionsMap[k].metrics in res
        invariant forall m :: m in res ==> exists k :: k in optionsMap && optionsMap[k].metrics == m
        decreases |rest|
      {
        var k :| k in rest;
        res := res + [optionsMap[k].metrics];
        rest := rest - {k};
      }
    }

    /** clearAllMetrics: the registry ends up empty. */
    method ClearAllMetrics()
      modifies this
      ensures Valid() && optionsMap == map[]
    {
      optionsMap := map[];
    }
  }

  /** Every label slot holds the value its DefaultLabelKeys name announces. */
  lemma LabelsAligned(pkg: PromPackage, ctx: Ctx?, env: AppEnv, i: nat)
    requires pkg.Valid() && i < |DefaultLabelKeys|
    ensures var r := pkg.GetValues(ctx, env);
      var set_ := pkg.GetOptionSet(ctx);
      && (DefaultLabelKeys[i] == "entryName" ==> r[i] == (if set_.Some? then set_.value.entryName else ""))
      && (DefaultLabelKeys[i] == "entryType" ==> r[i] == (if set_.Some? then set_.value.entryType else ""))
      && (DefaultLabelKeys[i] == "realm" ==> r[i] == env.realm)
      && (DefaultLabelKeys[i] == "region" ==> r[i] == env.region)
      && (DefaultLabelKeys[i] == "az" ==> r[i] == env.az)
      && (DefaultLabelKeys[i] == "domain" ==> r[i] == env.domain)
      && (DefaultLabelKeys[i] == "instance" ==> r[i] == env.hostname)
      && (DefaultLabelKeys[i] == "appVersion" ==> r[i] == env.appVersion)
      && (DefaultLabelKeys[i] == "appName" ==> r[i] == env.appName)
      && (DefaultLabelKeys[i] == "restMethod" ==> r[i] == (if ctx == null then "" else ctx.request.verb))
      && (DefaultLabelKeys[i] == "restPath" ==> r[i] == (if ctx == null then "" else ctx.request.path))
      && (DefaultLabelKeys[i] == "type" ==> r[i] == "fiber")
      && (DefaultLabelKeys[i] == "resCode" ==> (if ctx == null then r[i] == "" else ParseInt(r[i]) == Some(ctx.status)))
  {
  }

  /** Once the interceptor has tagged the context with a registered name, the metrics go to
      the set filed first under that name. */
  lemma TaggedLookup(pkg: PromPackage, ctx: Ctx, name: string)
    requires pkg.Valid() && name in pkg.optionsMap
    requires Common.EntryNameKey in ctx.userValues && ctx.userValues[Common.EntryNameKey] == Str(name)
    ensures pkg.GetOptionSet(ctx) == Some(pkg.optionsMap[name])
  {
  }
}
