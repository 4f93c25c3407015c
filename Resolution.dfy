/**
 * How `read_pipeline_config` resolves each field from the command-line data and the current
 * state: `get`, `get_parameter`, `get_list_of_paramters`, and the fixed sequence of eight
 * assignments the reader performs.  The state is the pair of dicts `p_config` and `p_tools`.
 */
module Resolution {
  import opened Wrappers
  import opened Values

  /** The fields a fresh configuration starts with (`__init__` without a default). */
  function DefaultConfig(): Entries {
    [("team", Str("")), ("name", Str("")), ("config_file", Str("")), ("vars_files", List([])), ("vars", Dict([]))]
  }

  function DefaultTools(): Entries {
    [("template", Str("")), ("merge", List([])), ("partials", List([])), ("cli", Str(""))]
  }

  /** `get(key)`: `{**p_config, **p_tools}[key]`, so a tool setting shadows a config field of the same name. */
  function Get(config: Entries, tools: Entries, key: string): (r: Result<Value>)
    ensures Has(tools, key) ==> r == Ok(LastLookup(tools, key).value)
    ensures !Has(tools, key) && Has(config, key) ==> r == Ok(Lookup(config, key).value)
    ensures !Has(tools, key) && !Has(config, key) ==> r == Err(KeyError(key))
  {
    match Lookup(Overlay(config, tools), key)
    case None => Err(KeyError(key))
    case Some(v) => Ok(v)
  }

  /** `get_parameter(data, flag, name, alias)`: the flag's value, else the long name's, else the stored one under `alias`. */
  function GetParameter(config: Entries, tools: Entries, data: Entries, flag: string, name: string, alias: Option<string>): (r: Result<Value>)
    ensures Has(data, flag) ==> r == Ok(Lookup(data, flag).value)
    ensures !Has(data, flag) && Has(data, name) ==> r == Ok(Lookup(data, name).value)
    ensures !Has(data, flag) && !Has(data, name) ==> r == Get(config, tools, alias.GetOr(name))
  {
    if Has(data, flag) then Ok(Lookup(data, flag).value)
    else if Has(data, name) then Ok(Lookup(data, name).value)
    else Get(config, tools, alias.GetOr(name))
  }

  /** `_r`: the override given under the flag or the long name; a lone string becomes a one-item list, `None` is no override. */
  function Override(data: Entries, flag: string, name: string): (r: Option<Value>)
    ensures r.Some? ==> !r.value.Null? && !r.value.Str?
    ensures !Has(data, flag) && !Has(data, name) ==> r.None?
  {
    var given :=
      if Has(data, flag) then Some(Lookup(data, flag).value)
      else if Has(data, name) then Some(Lookup(data, name).value)
      else None;
    match given
    case None => None
    case Some(v) =>
      if v.Str? then Some(List([v]))
      else if v.Null? then None
      else Some(v)
  }

  /** `{**r, **_r}` for a stored dict, `r + _r` otherwise. */
  function Combine(stored: Value, o: Value): Result<Value>
  {
    if stored.Dict? then
      if o.Dict? then Ok(Dict(Overlay(stored.entries, o.entries))) else Err(TypeError)
    else Add(stored, o)
  }

  /**
   * `get_list_of_paramters(data, flag, name, alias)`: the stored value is read first (so a missing
   * key is an error even when an override is given); without an override it is returned as it is,
   * a list override is appended to a stored list, and a dict override is laid over a stored dict.
   */
  function GetListOfParameters(config: Entries, tools: Entries, data: Entries, flag: string, name: string, alias: Option<string>): (r: Result<Value>)
    ensures Get(config, tools, alias.GetOr(name)).Err? ==> r == Get(config, tools, alias.GetOr(name))
    ensures Override(data, flag, name).None? ==> r == Get(config, tools, alias.GetOr(name))
    ensures Get(config, tools, alias.GetOr(name)).Ok? && Override(data, flag, name).Some? ==>
      var stored := Get(config, tools, alias.GetOr(name)).value;
      var o := Override(data, flag, name).value;
      && (stored.List? && o.List? ==> r.Ok? && r.value.List? && r.value.items == stored.items + o.items)
      && (stored.Dict? && o.Dict? ==>
            r.Ok? && r.value.Dict?
            && (forall k :: Lookup(r.value.entries, k) == if Has(o.entries, k) then LastLookup(o.entries, k) else Lookup(stored.entries, k))
            && |r.value.entries| >= |stored.entries|
            && (forall i :: 0 <= i < |stored.entries| ==> r.value.entries[i].0 == stored.entries[i].0))
      && (stored.Dict? && !o.Dict? ==> r == Err(TypeError))
      && (stored.List? && !o.List? ==> r == Err(TypeError))
  {
    match Get(config, tools, alias.GetOr(name))
    case Err(e) => Err(e)
    case Ok(stored) =>
      match Override(data, flag, name)
      case None => Ok(stored)
      case Some(o) => Combine(stored, o)
  }

  /** A lone string given for a list field is appended as one item. */
  lemma LoneStringIsAppended(config: Entries, tools: Entries, data: Entries, flag: string, name: string, alias: Option<string>,
                             stored: seq<Value>, s: string)
    requires Get(config, tools, alias.GetOr(name)) == Ok(List(stored))
    requires Lookup(data, flag) == Some(Str(s))
    ensures GetListOfParameters(config, tools, data, flag, name, alias) == Ok(List(stored + [Str(s)]))
  {
  }

  /** Which dict an assignment of the reader writes. */
  datatype Target = InConfig | InTools

  /** `get_parameter` (one value) or `get_list_of_paramters` (combined with the stored value). */
  datatype Arity = Single | Many

  /** One line of `read_pipeline_config`: `target[key] = resolver(data, flag, name, alias)`. */
  datatype Step = Step(target: Target, key: string, arity: Arity, flag: string, name: string, alias: Option<string>)

  /** The eight assignments of `read_pipeline_config`, in program order. */
  const ReadPlan: seq<Step> := [
    Step(InConfig, "team", Single, "-t", "team", None),
    Step(InConfig, "name", Single, "-p", "pipeline", Some("name")),
    Step(InConfig, "config_file", Single, "-c", "config", Some("config_file")),
    Step(InConfig, "vars_files", Many, "-l", "load-vars-from", Some("vars_files")),
    Step(InConfig, "vars", Many, "-v", "var", Some("vars")),
    Step(InTools, "template", Single, "-tpl", "template", None),
    Step(InTools, "merge", Many, "-m", "merge", None),
    Step(InTools, "partials", Many, "-s", "partials", None)
  ]

  /** The stored key a step falls back on. */
  function ReadKey(s: Step): string {
    s.alias.GetOr(s.name)
  }

  function Resolve(config: Entries, tools: Entries, data: Entries, s: Step): Result<Value> {
    if s.arity.Single? then GetParameter(config, tools, data, s.flag, s.name, s.alias)
    else GetListOfParameters(config, tools, data, s.flag, s.name, s.alias)
  }

  datatype ReadOutcome = ReadOutcome(config: Entries, tools: Entries, err: Option<Error>)

  /** The dict of `o` a step writes. */
  function Dest(o: ReadOutcome, t: Target): Entries {
    if t.InConfig? then o.config else o.tools
  }

  /** Writes one resolved value into its dict. */
  function Store(config: Entries, tools: Entries, s: Step, v: Value): ReadOutcome {
    if s.target.InConfig? then ReadOutcome(Put(config, s.key, v), tools, None)
    else ReadOutcome(config, Put(tools, s.key, v), None)
  }

  /**
   * The reader's steps one after the other, each resolved against the state the earlier ones
   * left; the first exception stops it and keeps the assignments already made.
   */
  function ApplyPlan(config: Entries, tools: Entries, data: Entries, plan: seq<Step>): ReadOutcome
    decreases |plan|
  {
    if plan == [] then ReadOutcome(config, tools, None)
    else
      match Resolve(config, tools, data, plan[0])
      case Err(e) => ReadOutcome(config, tools, Some(e))
      case Ok(v) =>
        var next := Store(config, tools, plan[0], v);
        ApplyPlan(next.config, next.tools, data, plan[1..])
  }

  /** One assignment on its own: the value is resolved, then stored; an exception leaves the state as it was. */
  function AssignOutcome(config: Entries, tools: Entries, data: Entries, s: Step): (o: ReadOutcome)
    ensures o.err.None? <==> Resolve(config, tools, data, s).Ok?
    ensures o.err.Some? ==> o == ReadOutcome(config, tools, Some(Resolve(config, tools, data, s).error))
    ensures o.err.None? ==> Lookup(Dest(o, s.target), s.key) == Some(Resolve(config, tools, data, s).value)
  {
    match Resolve(config, tools, data, s)
    case Err(e) => ReadOutcome(config, tools, Some(e))
    case Ok(v) => Store(config, tools, s, v)
  }

  /** The plan from step `i` on: step `i`, then, unless it raised, the plan from step `i + 1` on. */
  lemma ApplyPlanUnfold(config: Entries, tools: Entries, data: Entries, plan: seq<Step>, i: nat)
    requires i < |plan|
    ensures var o := AssignOutcome(config, tools, data, plan[i]);
      ApplyPlan(config, tools, data, plan[i..]) == if o.err.Some? then o else ApplyPlan(o.config, o.tools, data, plan[i + 1..])
  {
    assert plan[i..][0] == plan[i] && plan[i..][1..] == plan[i + 1..];
  }

  /** Reading from a state with the invariant ends in one, whether it succeeds or not. */
  lemma ReadKeepsInvariant(config: Entries, tools: Entries, data: Entries)
    ensures var o := ApplyPlan(config, tools, data, ReadPlan);
      StateInvariant(config, tools) ==> StateInvariant(o.config, o.tools)
  {
    if StateInvariant(config, tools) {
      ApplyPlanKeepsInvariant(config, tools, data, ReadPlan);
    }
  }

  /** Every step falls back on the key it writes, and no two steps write the same key. */
  predicate WellFormedPlan(plan: seq<Step>) {
    && (forall i :: 0 <= i < |plan| ==> ReadKey(plan[i]) == plan[i].key)
    && (forall i, j :: 0 <= i < j < |plan| ==> plan[i].key != plan[j].key)
  }

  lemma ReadPlanWellFormed()
    ensures WellFormedPlan(ReadPlan)
  {
  }

  /** A write to one key does not change what `get` returns for another. */
  lemma GetAfterStore(config: Entries, tools: Entries, s: Step, v: Value, k: string)
    requires s.key != k
    ensures var next := Store(config, tools, s, v); Get(next.config, next.tools, k) == Get(config, tools, k)
  {
    var next := Store(config, tools, s, v);
    if s.target.InTools? {
      LastLookupPut(tools, s.key, v, k);
      assert next.config == config;
      assert Lookup(next.tools, k) == Lookup(tools, k);
      assert Has(next.tools, k) == Has(tools, k);
    } else {
      assert next.tools == tools;
      assert Lookup(next.config, k) == Lookup(config, k);
      assert Has(next.config, k) == Has(config, k);
    }
  }

  lemma {:induction false} WellFormedTail(plan: seq<Step>)
    requires plan != [] && WellFormedPlan(plan)
    ensures WellFormedPlan(plan[1..])
    ensures forall i :: 0 <= i < |plan[1..]| ==> plan[1..][i].key != plan[0].key
  {
    forall i | 0 <= i < |plan[1..]| ensures plan[1..][i].key != plan[0].key && ReadKey(plan[1..][i]) == plan[1..][i].key {
      assert plan[1..][i] == plan[i + 1];
    }
    forall i, j | 0 <= i < j < |plan[1..]| ensures plan[1..][i].key != plan[1..][j].key {
      assert plan[1..][i] == plan[i + 1] && plan[1..][j] == plan[j + 1];
    }
  }

  /** Resolving a step only depends on the stored value under its fallback key. */
  lemma ResolveAfterStore(config: Entries, tools: Entries, data: Entries, s: Step, v: Value, t: Step)
    requires s.key != ReadKey(t)
    ensures var next := Store(config, tools, s, v); Resolve(next.config, next.tools, data, t) == Resolve(config, tools, data, t)
  {
    var next := Store(config, tools, s, v);
    var k := ReadKey(t);
    GetAfterStore(config, tools, s, v, k);
    var g := Get(config, tools, k);
    assert Get(next.config, next.tools, k) == g;
    if t.arity.Single? {
      assert GetParameter(next.config, next.tools, data, t.flag, t.name, t.alias) == GetParameter(config, tools, data, t.flag, t.name, t.alias);
    } else {
      assert GetListOfParameters(next.config, next.tools, data, t.flag, t.name, t.alias) == GetListOfParameters(config, tools, data, t.flag, t.name, t.alias);
    }
  }

  // For a well-formed plan the order of the steps does not matter: each one resolves against the
  // state before the read.  On success every step's key holds the value it resolves to there and
  // every key no step writes is unchanged; on failure the error is that of the first step that
  // fails there.  The three lemmas after the next one state this.

  /** After the first step, the rest of a well-formed plan resolves as it would have at the start. */
  lemma RestResolvesAgainstStart(config: Entries, tools: Entries, data: Entries, plan: seq<Step>, v: Value)
    requires WellFormedPlan(plan) && plan != []
    ensures WellFormedPlan(plan[1..])
    ensures var next := Store(config, tools, plan[0], v);
      forall i :: 0 <= i < |plan[1..]| ==>
        Resolve(next.config, next.tools, data, plan[1..][i]) == Resolve(config, tools, data, plan[i + 1])
  {
    WellFormedTail(plan);
    var next := Store(config, tools, plan[0], v);
    forall i | 0 <= i < |plan[1..]|
      ensures Resolve(next.config, next.tools, data, plan[1..][i]) == Resolve(config, tools, data, plan[i + 1])
    {
      assert plan[1..][i] == plan[i + 1];
      ResolveAfterStore(config, tools, data, plan[0], v, plan[1..][i]);
    }
  }

  /** A step's value stays in place while the later steps write other keys. */
  lemma {:induction false} ApplyPlanKeepsOtherKeys(config: Entries, tools: Entries, data: Entries, plan: seq<Step>)
    ensures var o := ApplyPlan(config, tools, data, plan);
      forall k :: (forall i :: 0 <= i < |plan| ==> plan[i].key != k) ==>
        Lookup(o.config, k) == Lookup(config, k) && Lookup(o.tools, k) == Lookup(tools, k)
    decreases |plan|
  {
    if plan != [] {
      match Resolve(config, tools, data, plan[0])
      case Err(e) =>
      case Ok(v) =>
        var next := Store(config, tools, plan[0], v);
        var rest := plan[1..];
        ApplyPlanKeepsOtherKeys(next.config, next.tools, data, rest);
        var o := ApplyPlan(config, tools, data, plan);
        assert o == ApplyPlan(next.config, next.tools, data, rest);
        forall k | forall i :: 0 <= i < |plan| ==> plan[i].key != k
          ensures Lookup(o.config, k) == Lookup(config, k) && Lookup(o.tools, k) == Lookup(tools, k)
        {
          assert plan[0].key != k;
          assert forall i :: 0 <= i < |rest| ==> rest[i].key != k by {
            forall i | 0 <= i < |rest| ensures rest[i].key != k {
              assert rest[i] == plan[i + 1];
            }
          }
        }
    }
  }

  /** On success every step's key holds the value the step resolves to at the start. */
  lemma {:induction false} ApplyPlanStoresResolved(config: Entries, tools: Entries, data: Entries, plan: seq<Step>)
    requires WellFormedPlan(plan)
    ensures var o := ApplyPlan(config, tools, data, plan);
      o.err.None? ==>
        forall i :: 0 <= i < |plan| ==>
          Resolve(config, tools, data, plan[i]).Ok? &&
          Lookup(Dest(o, plan[i].target), plan[i].key) == Some(Resolve(config, tools, data, plan[i]).value)
    decreases |plan|
  {
    if plan != [] {
      var s := plan[0];
      match Resolve(config, tools, data, s)
      case Err(e) =>
      case Ok(v) =>
        var next := Store(config, tools, s, v);
        var rest := plan[1..];
        RestResolvesAgainstStart(config, tools, data, plan, v);
        ApplyPlanStoresResolved(next.config, next.tools, data, rest);
        ApplyPlanKeepsOtherKeys(next.config, next.tools, data, rest);
        var o := ApplyPlan(config, tools, data, plan);
        assert o == ApplyPlan(next.config, next.tools, data, rest);
        assert Lookup(Dest(o, s.target), s.key) == Some(v) by {
          WellFormedTail(plan);
          assert Lookup(Dest(next, s.target), s.key) == Some(v);
        }
        if o.err.None? {
          forall i | 0 <= i < |plan|
            ensures Resolve(config, tools, data, plan[i]).Ok? &&
              Lookup(Dest(o, plan[i].target), plan[i].key) == Some(Resolve(config, tools, data, plan[i]).value)
          {
            if i > 0 { assert plan[i] == rest[i - 1]; }
          }
        }
    }
  }

  /** On failure the error is that of the first step that fails against the start. */
  lemma {:induction false} ApplyPlanFirstError(config: Entries, tools: Entries, data: Entries, plan: seq<Step>)
    requires WellFormedPlan(plan)
    ensures var o := ApplyPlan(config, tools, data, plan);
      o.err.Some? ==>
        exists i :: 0 <= i < |plan| && Resolve(config, tools, data, plan[i]) == Err(o.err.value) &&
          forall j :: 0 <= j < i ==> Resolve(config, tools, data, plan[j]).Ok?
    decreases |plan|
  {
    if plan != [] {
      var s := plan[0];
      match Resolve(config, tools, data, s)
      case Err(e) =>
        assert Resolve(config, tools, data, plan[0]) == Err(e);
      case Ok(v) =>
        var next := Store(config, tools, s, v);
        var rest := plan[1..];
        RestResolvesAgainstStart(config, tools, data, plan, v);
        ApplyPlanFirstError(next.config, next.tools, data, rest);
        var o := ApplyPlan(config, tools, data, plan);
        assert o == ApplyPlan(next.config, next.tools, data, rest);
        if o.err.Some? {
          var i :| 0 <= i < |rest| && Resolve(next.config, next.tools, data, rest[i]) == Err(o.err.value) &&
            forall j :: 0 <= j < i ==> Resolve(next.config, next.tools, data, rest[j]).Ok?;
          assert forall j :: 0 <= j < i + 1 ==> Resolve(config, tools, data, plan[j]).Ok? by {
            forall j | 0 <= j < i + 1 ensures Resolve(config, tools, data, plan[j]).Ok? {
              if j > 0 { assert plan[j] == rest[j - 1]; }
            }
          }
          assert Resolve(config, tools, data, plan[i + 1]) == Err(o.err.value);
        }
    }
  }

  /** The five basic fields of `p_config`. */
  predicate ConfigKey(k: string) {
    k == "team" || k == "name" || k == "config_file" || k == "vars_files" || k == "vars"
  }

  /** The four advanced settings of `p_tools`. */
  predicate ToolKey(k: string) {
    k == "template" || k == "merge" || k == "partials" || k == "cli"
  }

  /**
   * The shape every configuration keeps: both dicts are dicts, the five basic fields exist, the
   * tool settings are exactly the four advanced ones, and `merge` and `partials` are lists.
   */
  ghost predicate StateInvariant(config: Entries, tools: Entries) {
    && UniqueKeys(config) && UniqueKeys(tools)
    && Has(config, "team") && Has(config, "name") && Has(config, "config_file")
    && Has(config, "vars_files") && Has(config, "vars")
    && (forall k :: Has(tools, k) <==> ToolKey(k))
    && Lookup(tools, "merge").Some? && Lookup(tools, "merge").value.List?
    && Lookup(tools, "partials").Some? && Lookup(tools, "partials").value.List?
  }

  lemma DefaultsKeepInvariant()
    ensures StateInvariant(DefaultConfig(), DefaultTools())
  {
    DefaultConfigFields();
    DefaultToolSettings();
  }

  lemma DefaultConfigFields()
    ensures UniqueKeys(DefaultConfig())
    ensures Has(DefaultConfig(), "team") && Has(DefaultConfig(), "name") && Has(DefaultConfig(), "config_file")
    ensures Has(DefaultConfig(), "vars_files") && Has(DefaultConfig(), "vars")
  {
    assert "vars_files"[4] != "vars"[3];
  }

  lemma DefaultToolSettings()
    ensures UniqueKeys(DefaultTools())
    ensures forall k :: Has(DefaultTools(), k) <==> ToolKey(k)
    ensures Lookup(DefaultTools(), "merge") == Some(List([])) && Lookup(DefaultTools(), "partials") == Some(List([]))
  {
    assert "template"[0] != "partials"[0];
    assert forall i :: 0 <= i < |DefaultTools()| ==> ToolKey(DefaultTools()[i].0);
  }

  /** What the invariant needs to know about a step of the reader. */
  lemma ReadPlanStep(s: Step)
    requires s in ReadPlan
    ensures ReadKey(s) == s.key
    ensures s.target.InConfig? ==> ConfigKey(s.key)
    ensures s.target.InTools? ==> ToolKey(s.key) && s.key != "cli"
    ensures (s.key == "merge" || s.key == "partials") ==> s.arity.Many? && s.target.InTools?
  {
    var i :| 0 <= i < |ReadPlan| && ReadPlan[i] == s;
    if i == 0 {} else if i == 1 {} else if i == 2 {} else if i == 3 {}
    else if i == 4 {} else if i == 5 {} else if i == 6 {} else {}
  }

  /** A list field stays a list: its value is combined by `+`, which only accepts another list. */
  lemma ListFieldStaysList(config: Entries, tools: Entries, data: Entries, s: Step)
    requires s.arity.Many? && Get(config, tools, ReadKey(s)).Ok? && Get(config, tools, ReadKey(s)).value.List?
    requires Resolve(config, tools, data, s).Ok?
    ensures Resolve(config, tools, data, s).value.List?
  {
    assert Resolve(config, tools, data, s) == GetListOfParameters(config, tools, data, s.flag, s.name, s.alias);
  }

  /** One assignment of the reader keeps the invariant. */
  lemma StoreKeepsInvariant(config: Entries, tools: Entries, data: Entries, s: Step)
    requires StateInvariant(config, tools) && s in ReadPlan
    requires Resolve(config, tools, data, s).Ok?
    ensures var o := Store(config, tools, s, Resolve(config, tools, data, s).value); StateInvariant(o.config, o.tools)
  {
    ReadPlanStep(s);
    var v := Resolve(config, tools, data, s).value;
    if s.target.InConfig? {
      ConfigPutKeepsInvariant(config, tools, s.key, v);
    } else {
      if s.key == "merge" || s.key == "partials" {
        UniqueLastLookup(tools, s.key);
        ListFieldStaysList(config, tools, data, s);
      }
      ToolsPutKeepsInvariant(config, tools, s.key, v);
    }
  }

  lemma InReadPlanTail(plan: seq<Step>)
    requires plan != [] && forall i :: 0 <= i < |plan| ==> plan[i] in ReadPlan
    ensures forall i :: 0 <= i < |plan[1..]| ==> plan[1..][i] in ReadPlan
  {
    forall i | 0 <= i < |plan[1..]| ensures plan[1..][i] in ReadPlan {
      assert plan[1..][i] == plan[i + 1];
    }
  }

  /** Reading keeps the invariant, whether it succeeds or stops at an exception. */
  lemma {:induction false} ApplyPlanKeepsInvariant(config: Entries, tools: Entries, data: Entries, plan: seq<Step>)
    requires StateInvariant(config, tools)
    requires forall i :: 0 <= i < |plan| ==> plan[i] in ReadPlan
    ensures var o := ApplyPlan(config, tools, data, plan); StateInvariant(o.config, o.tools)
    decreases |plan|
  {
    if plan != [] {
      match Resolve(config, tools, data, plan[0])
      case Err(e) =>
      case Ok(v) =>
        StoreKeepsInvariant(config, tools, data, plan[0]);
        var next := Store(config, tools, plan[0], v);
        InReadPlanTail(plan);
        ApplyPlanKeepsInvariant(next.config, next.tools, data, plan[1..]);
    }
  }

  /** With no command-line data every step resolves to the stored value. */
  lemma ResolveWithoutData(config: Entries, tools: Entries, s: Step)
    ensures Resolve(config, tools, [], s) == Get(config, tools, ReadKey(s))
  {
    assert !Has([], s.flag) && !Has([], s.name);
  }

  lemma ConfigKeysAreNotToolKeys(k: string)
    requires ConfigKey(k)
    ensures !ToolKey(k)
  {
    assert |k| == 4 || |k| == 10 || |k| == 11;
  }

  lemma StoreConfigWithoutData(config: Entries, tools: Entries, s: Step)
    requires StateInvariant(config, tools) && s in ReadPlan && s.target.InConfig?
    ensures Resolve(config, tools, [], s).Ok?
    ensures Store(config, tools, s, Resolve(config, tools, [], s).value) == ReadOutcome(config, tools, None)
  {
    ReadPlanStep(s);
    ResolveWithoutData(config, tools, s);
    var key := s.key;
    ConfigKeysAreNotToolKeys(key);
    assert !Has(tools, key);
    assert Get(config, tools, key) == Ok(Lookup(config, key).value);
    PutSame(config, key);
  }

  lemma StoreToolsWithoutData(config: Entries, tools: Entries, s: Step)
    requires StateInvariant(config, tools) && s in ReadPlan && s.target.InTools?
    ensures Resolve(config, tools, [], s).Ok?
    ensures Store(config, tools, s, Resolve(config, tools, [], s).value) == ReadOutcome(config, tools, None)
  {
    ReadPlanStep(s);
    ResolveWithoutData(config, tools, s);
    var key := s.key;
    assert Has(tools, key);
    UniqueLastLookup(tools, key);
    assert Get(config, tools, key) == Ok(Lookup(tools, key).value);
    PutSame(tools, key);
  }

  /** With no command-line data an assignment of the reader writes back what is there. */
  lemma StoreWithoutData(config: Entries, tools: Entries, s: Step)
    requires StateInvariant(config, tools) && s in ReadPlan
    ensures Resolve(config, tools, [], s).Ok?
    ensures Store(config, tools, s, Resolve(config, tools, [], s).value) == ReadOutcome(config, tools, None)
  {
    if s.target.InConfig? {
      StoreConfigWithoutData(config, tools, s);
    } else {
      StoreToolsWithoutData(config, tools, s);
    }
  }

  /** Reading with no command-line data changes nothing. */
  lemma {:induction false} ReadNothingChangesNothing(config: Entries, tools: Entries, plan: seq<Step>)
    requires StateInvariant(config, tools)
    requires forall i :: 0 <= i < |plan| ==> plan[i] in ReadPlan
    ensures ApplyPlan(config, tools, [], plan) == ReadOutcome(config, tools, None)
    decreases |plan|
  {
    if plan != [] {
      StoreWithoutData(config, tools, plan[0]);
      InReadPlanTail(plan);
      ReadNothingChangesNothing(config, tools, plan[1..]);
    }
  }

  /** After `set(key, value)`, `get(key)` still returns the tool setting when one has that name. */
  lemma SetIsShadowedByTools(config: Entries, tools: Entries, key: string, v: Value)
    ensures Get(Put(config, key, v), tools, key) == if Has(tools, key) then Ok(LastLookup(tools, key).value) else Ok(v)
  {
  }

  /** `set(key, value)` and every other write to `p_config` keep the invariant. */
  lemma ConfigPutKeepsInvariant(config: Entries, tools: Entries, key: string, v: Value)
    requires StateInvariant(config, tools)
    ensures StateInvariant(Put(config, key, v), tools)
  {
    PutKeepsUniqueKeys(config, key, v);
    assert Has(Put(config, key, v), key);
  }

  /** Storing the command string under `cli` keeps the invariant. */
  lemma CliKeepsInvariant(config: Entries, tools: Entries, v: Value)
    ensures StateInvariant(config, tools) ==> StateInvariant(config, Put(tools, "cli", v))
  {
    if StateInvariant(config, tools) {
      ToolsPutKeepsInvariant(config, tools, "cli", v);
    }
  }

  /** A write to an existing tool setting keeps the invariant, provided `merge` and `partials` stay lists. */
  lemma ToolsPutKeepsInvariant(config: Entries, tools: Entries, key: string, v: Value)
    requires StateInvariant(config, tools) && Has(tools, key)
    requires key == "merge" || key == "partials" ==> v.List?
    ensures StateInvariant(config, Put(tools, key, v))
  {
    var t := Put(tools, key, v);
    PutKeepsUniqueKeys(tools, key, v);
    forall k ensures Has(t, k) <==> Has(tools, k) {
      if k != key {
        assert Lookup(t, k) == Lookup(tools, k);
      }
    }
  }
}
