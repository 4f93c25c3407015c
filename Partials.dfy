/**
 * `process_partials`: every partial but the first becomes a file path put at the front of the
 * merge list (walking the tail backwards, so the paths keep their order), and the first partial
 * becomes the new primary configuration file.  A partial is a file name relative to the current
 * `config_file`, or a dict `{config_file: ..., with: {...}}` whose file is also rewritten by the
 * placeholder substitution into the one scratch file.
 */
module Partials {
  import opened Wrappers
  import opened Values
  import opened Substitution

  /** What `partials[1:]`, `partials[0]` and iteration see: a list's items or a string's characters. */
  function Items(v: Value): (r: Result<seq<Value>>)
    ensures v.List? ==> r == Ok(v.items)
    ensures v.Str? ==> r.Ok? && |r.value| == |v.s| && forall i :: 0 <= i < |v.s| ==> r.value[i] == Str([v.s[i]])
    ensures !v.List? && !v.Str? ==> r == Err(TypeError)
  {
    match v
    case List(items) => Ok(items)
    case Str(s) => Ok(seq(|s|, i requires 0 <= i < |s| => Str([s[i]])))
    case _ => Err(TypeError)
  }

  /** `prefix + name + ".yml"`, which only strings get through. */
  function PathOf(prefix: Value, name: Value): (r: Result<string>)
    ensures r.Ok? <==> prefix.Str? && name.Str?
    ensures r.Ok? ==> r.value == prefix.s + name.s + ".yml"
    ensures r.Err? ==> r == Err(TypeError)
  {
    match Add(prefix, name)
    case Err(e) => Err(e)
    case Ok(p) =>
      match Add(p, Str(".yml"))
      case Err(e) => Err(e)
      case Ok(q) => if q.Str? then Ok(q.s) else Err(TypeError)
  }

  /** A path built by `PathOf` ends in `.yml`, the scratch path does not: no partial reads the scratch file. */
  lemma ScratchIsNeverAPartial(prefix: Value, name: Value)
    requires PathOf(prefix, name).Ok?
    ensures PathOf(prefix, name).value != ScratchPath
  {
    var p := PathOf(prefix, name).value;
    assert p[|p| - 4..] == ".yml";
    assert ScratchPath[|ScratchPath| - 4..] == "name";
  }

  /** The path a partial stands for and, for a templated one, the lines it leaves in the scratch file. */
  datatype Expansion = Expansion(path: string, written: Option<seq<string>>)

  /** One partial of the tail, expanded against the current `config_file`. */
  function ExpandPartial(prefix: Value, p: Value, readLines: string -> Option<seq<string>>): (r: Result<Expansion>)
    ensures p.Dict? && r.Ok? ==> r.value.path == ScratchPath && r.value.written.Some?
    ensures !p.Dict? ==> (r.Ok? <==> prefix.Str? && p.Str?)
    ensures !p.Dict? && r.Ok? ==> r.value == Expansion(prefix.s + p.s + ".yml", None)
  {
    if p.Dict? then
      match Lookup(p.entries, "config_file")
      case None => Err(KeyError("config_file"))
      case Some(name) =>
        match PathOf(prefix, name)
        case Err(e) => Err(e)
        case Ok(path) =>
          match Lookup(p.entries, "with")
          case None => Err(KeyError("with"))
          case Some(w) =>
            match Substitute(path, w, readLines)
            case Err(e) => Err(e)
            case Ok(sc) => Ok(Expansion(sc.path, Some(sc.lines)))
    else
      match PathOf(prefix, p)
      case Err(e) => Err(e)
      case Ok(path) => Ok(Expansion(path, None))
  }

  /**
   * `p_tools["merge"]` as the loop uses it: `insert` needs a list.  The loop mutates that one list
   * in place, so the dict entry keeps its position and only its value changes.
   */
  function MergeList(tools: Entries): (r: Result<seq<Value>>)
    ensures r.Ok? <==> Lookup(tools, "merge").Some? && Lookup(tools, "merge").value.List?
    ensures r.Ok? ==> Lookup(tools, "merge") == Some(List(r.value))
    ensures Lookup(tools, "merge").None? ==> r == Err(KeyError("merge"))
    ensures Lookup(tools, "merge").Some? && !Lookup(tools, "merge").value.List? ==> r == Err(AttributeError)
  {
    match Lookup(tools, "merge")
    case None => Err(KeyError("merge"))
    case Some(m) => if m.List? then Ok(m.items) else Err(AttributeError)
  }

  /** A partial of the tail expanded against the `config_file` of `config`, which the loop does not change. */
  function Expand(config: Entries, p: Value, readLines: string -> Option<seq<string>>): (r: Result<Expansion>)
    ensures Lookup(config, "config_file").None? ==> r == Err(KeyError("config_file"))
    ensures Lookup(config, "config_file").Some? ==> r == ExpandPartial(Lookup(config, "config_file").value, p, readLines)
  {
    match Lookup(config, "config_file")
    case None => Err(KeyError("config_file"))
    case Some(prefix) => ExpandPartial(prefix, p, readLines)
  }

  /** The expansion of every partial of `ps`, position by position. */
  function Expansions(config: Entries, ps: seq<Value>, readLines: string -> Option<seq<string>>): (r: seq<Result<Expansion>>)
    ensures |r| == |ps|
  {
    if ps == [] then [] else [Expand(config, ps[0], readLines)] + Expansions(config, ps[1..], readLines)
  }

  lemma {:induction false} ExpansionsAt(config: Entries, ps: seq<Value>, readLines: string -> Option<seq<string>>, i: nat)
    requires i < |ps|
    ensures Expansions(config, ps, readLines)[i] == Expand(config, ps[i], readLines)
  {
    if i > 0 {
      ExpansionsAt(config, ps[1..], readLines, i - 1);
    }
  }

  /** The merge list and the last scratch content while the tail is walked, and the exception that stopped it. */
  datatype TailState = TailState(merge: seq<Value>, scratch: Option<seq<string>>, err: Option<Error>)

  /**
   * One iteration of the loop over `reversed(partials[1:])`, given the expansion of its partial:
   * the path is computed (and a template written) first, then `insert(0, path)` runs on the merge
   * list fetched from `p_tools`, which fails with `mergeErr` when there is no such list.
   */
  function TailStep(st: TailState, x: Result<Expansion>, mergeErr: Option<Error>): (r: TailState)
    ensures r.err.None? <==> x.Ok? && mergeErr.None?
    ensures r.err.None? ==> r.merge == [Str(x.value.path)] + st.merge
    ensures x.Ok? ==> r.scratch == if x.value.written.Some? then x.value.written else st.scratch
  {
    match x
    case Err(e) => TailState(st.merge, st.scratch, Some(e))
    case Ok(x) =>
      var scratch := if x.written.Some? then x.written else st.scratch;
      match mergeErr
      case Some(e) => TailState(st.merge, scratch, Some(e))
      case None => TailState([Str(x.path)] + st.merge, scratch, None)
  }

  /** The loop after its first `k` iterations, which handle `xs[|xs| - 1]` down to `xs[|xs| - k]`. */
  function TailRun(merge: seq<Value>, mergeErr: Option<Error>, xs: seq<Result<Expansion>>, k: nat): TailState
    requires k <= |xs|
    decreases k
  {
    if k == 0 then TailState(merge, None, None)
    else
      var st := TailRun(merge, mergeErr, xs, k - 1);
      if st.err.Some? then st else TailStep(st, xs[|xs| - k], mergeErr)
  }

  predicate AllOk(xs: seq<Result<Expansion>>) {
    forall i :: 0 <= i < |xs| ==> xs[i].Ok?
  }

  /** The paths of successful expansions, in order. */
  function Paths(xs: seq<Result<Expansion>>): (r: seq<Value>)
    requires AllOk(xs)
    ensures |r| == |xs| && forall i :: 0 <= i < |xs| ==> r[i] == Str(xs[i].value.path)
  {
    seq(|xs|, i requires 0 <= i < |xs| => Str(xs[i].value.path))
  }

  /** The content the scratch file keeps from expansions `xs`: that of the first templated one, written last. */
  function FirstWritten(xs: seq<Result<Expansion>>): Option<seq<string>>
  {
    if xs == [] then None
    else if xs[0].Ok? && xs[0].value.written.Some? then xs[0].value.written
    else FirstWritten(xs[1..])
  }

  /** What `process_partials` leaves: the two dicts, the scratch content it wrote last, and its exception. */
  datatype PartialsOutcome = PartialsOutcome(config: Entries, tools: Entries, scratch: Option<seq<string>>, err: Option<Error>)

  /** `p_tools` once the loop has run: the merge entry holds the list the loop grew, if there was one. */
  function ToolsAfterTail(tools: Entries, merge: seq<Value>): Entries {
    if MergeList(tools).Ok? then Put(tools, "merge", List(merge)) else tools
  }

  /** The list the loop grows: `p_tools["merge"]` if it is a list, else nothing. */
  function MergeStart(tools: Entries): seq<Value> {
    var m := MergeList(tools);
    if m.Ok? then m.value else []
  }

  /** The exception the first `insert(0, …)` on `p_tools["merge"]` raises, if any. */
  function MergeError(tools: Entries): Option<Error> {
    var m := MergeList(tools);
    if m.Err? then Some(m.error) else None
  }

  /** The loop of lines 100-110 over the partials `tail`, against the dicts before it. */
  function TailOutcome(config: Entries, tools: Entries, tail: seq<Value>, readLines: string -> Option<seq<string>>): TailState {
    TailRun(MergeStart(tools), MergeError(tools), Expansions(config, tail, readLines), |tail|)
  }

  /** Lines 112-116: the first partial replaces `config_file`. */
  function HeadStep(config: Entries, tools: Entries, scratch: Option<seq<string>>, p0: Value, readLines: string -> Option<seq<string>>): PartialsOutcome
  {
    match Lookup(config, "config_file")
    case None => PartialsOutcome(config, tools, scratch, Some(KeyError("config_file")))
    case Some(prefix) =>
      if p0.Dict? then
        match Lookup(p0.entries, "config_file")
        case None => PartialsOutcome(config, tools, scratch, Some(KeyError("config_file")))
        case Some(name) =>
          match PathOf(prefix, name)
          case Err(e) => PartialsOutcome(config, tools, scratch, Some(e))
          case Ok(path) =>
            // the concatenated path is stored before the substitution runs
            var config1 := Put(config, "config_file", Str(path));
            match Lookup(p0.entries, "with")
            case None => PartialsOutcome(config1, tools, scratch, Some(KeyError("with")))
            case Some(w) =>
              match Substitute(path, w, readLines)
              case Err(e) => PartialsOutcome(config1, tools, scratch, Some(e))
              case Ok(sc) => PartialsOutcome(Put(config1, "config_file", Str(sc.path)), tools, Some(sc.lines), None)
      else
        match PathOf(prefix, p0)
        case Err(e) => PartialsOutcome(config, tools, scratch, Some(e))
        case Ok(path) => PartialsOutcome(Put(config, "config_file", Str(path)), tools, scratch, None)
  }

  /** `partials[1:]` */
  function Tail(items: seq<Value>): seq<Value> {
    if items == [] then [] else items[1..]
  }

  /** The whole of `process_partials`. */
  function ProcessPartialsSpec(config: Entries, tools: Entries, readLines: string -> Option<seq<string>>): PartialsOutcome
  {
    match Lookup(tools, "partials")
    case None => PartialsOutcome(config, tools, None, Some(KeyError("partials")))
    case Some(pv) =>
      match Items(pv)
      case Err(e) => PartialsOutcome(config, tools, None, Some(e))
      case Ok(items) =>
        var st := TailOutcome(config, tools, Tail(items), readLines);
        var tools' := ToolsAfterTail(tools, st.merge);
        if st.err.Some? then PartialsOutcome(config, tools', st.scratch, st.err)
        else if items == [] then PartialsOutcome(config, tools', st.scratch, Some(IndexError))
        else HeadStep(config, tools', st.scratch, items[0], readLines)
  }

  /** The loop unrolled once. */
  lemma TailRunUnfold(merge: seq<Value>, mergeErr: Option<Error>, xs: seq<Result<Expansion>>, k: nat)
    requires 0 < k <= |xs|
    requires TailRun(merge, mergeErr, xs, k).err.None?
    ensures TailRun(merge, mergeErr, xs, k - 1).err.None?
    ensures TailRun(merge, mergeErr, xs, k) == TailStep(TailRun(merge, mergeErr, xs, k - 1), xs[|xs| - k], mergeErr)
  {
  }

  /** After `k` successful iterations every expansion they used succeeded. */
  lemma {:induction false} TailRunAllOk(merge: seq<Value>, mergeErr: Option<Error>, xs: seq<Result<Expansion>>, k: nat)
    requires k <= |xs|
    requires TailRun(merge, mergeErr, xs, k).err.None?
    ensures AllOk(xs[|xs| - k..])
    decreases k
  {
    if k > 0 {
      TailRunUnfold(merge, mergeErr, xs, k);
      TailRunAllOk(merge, mergeErr, xs, k - 1);
      var j := |xs| - k;
      assert forall i :: 0 < i < |xs[j..]| ==> xs[j..][i] == xs[j + 1..][i - 1];
    }
  }

  /**
   * After `k` successful iterations the merge list starts with the paths of the `k` last partials
   * of the tail, in their original order, followed by the old list.
   */
  lemma {:induction false} TailRunInsertsInOrder(merge: seq<Value>, mergeErr: Option<Error>, xs: seq<Result<Expansion>>, k: nat)
    requires k <= |xs|
    requires TailRun(merge, mergeErr, xs, k).err.None?
    ensures AllOk(xs[|xs| - k..])
    ensures TailRun(merge, mergeErr, xs, k).merge == Paths(xs[|xs| - k..]) + merge
    decreases k
  {
    TailRunAllOk(merge, mergeErr, xs, k);
    if k > 0 {
      var j := |xs| - k;
      TailRunUnfold(merge, mergeErr, xs, k);
      TailRunInsertsInOrder(merge, mergeErr, xs, k - 1);
      PathsCons(xs[j..]);
      assert xs[j..][1..] == xs[j + 1..];
    }
  }

  lemma PathsCons(xs: seq<Result<Expansion>>)
    requires xs != [] && AllOk(xs)
    ensures AllOk(xs[1..]) && Paths(xs) == [Str(xs[0].value.path)] + Paths(xs[1..])
  {
    assert forall i :: 0 < i < |xs| ==> xs[1..][i - 1] == xs[i];
  }

  /** ... and the scratch file holds what the first templated one among them wrote. */
  lemma {:induction false} TailRunScratch(merge: seq<Value>, mergeErr: Option<Error>, xs: seq<Result<Expansion>>, k: nat)
    requires k <= |xs|
    requires TailRun(merge, mergeErr, xs, k).err.None?
    ensures TailRun(merge, mergeErr, xs, k).scratch == FirstWritten(xs[|xs| - k..])
    decreases k
  {
    if k > 0 {
      var j := |xs| - k;
      TailRunUnfold(merge, mergeErr, xs, k);
      TailRunScratch(merge, mergeErr, xs, k - 1);
      assert xs[j..][1..] == xs[j + 1..];
    }
  }

  /** The loop one iteration further, as long as it has not raised. */
  lemma TailRunStep(merge: seq<Value>, mergeErr: Option<Error>, xs: seq<Result<Expansion>>, k: nat)
    requires 0 < k <= |xs|
    requires TailRun(merge, mergeErr, xs, k - 1).err.None?
    ensures TailRun(merge, mergeErr, xs, k) == TailStep(TailRun(merge, mergeErr, xs, k - 1), xs[|xs| - k], mergeErr)
  {
  }

  /** What iteration `k` of the loop does, given the state after the earlier ones and its expansion `x`. */
  lemma TailRunNext(merge0: seq<Value>, mergeErr: Option<Error>, xs: seq<Result<Expansion>>, k: nat,
                    merge: seq<Value>, scratch: Option<seq<string>>)
    requires 0 < k <= |xs|
    requires TailRun(merge0, mergeErr, xs, k - 1) == TailState(merge, scratch, None)
    ensures var x := xs[|xs| - k];
      && (x.Err? ==> TailRun(merge0, mergeErr, xs, |xs|) == TailState(merge, scratch, Some(x.error)))
      && (x.Ok? ==>
            var scratch' := if x.value.written.Some? then x.value.written else scratch;
            && (mergeErr.Some? ==> TailRun(merge0, mergeErr, xs, |xs|) == TailState(merge, scratch', mergeErr))
            && (mergeErr.None? ==> TailRun(merge0, mergeErr, xs, k) == TailState([Str(x.value.path)] + merge, scratch', None)))
  {
    TailRunStep(merge0, mergeErr, xs, k);
    if TailRun(merge0, mergeErr, xs, k).err.Some? {
      TailRunStops(merge0, mergeErr, xs, k, |xs|);
    }
  }

  /** Once an iteration raises, the loop is over: later iterations change nothing. */
  lemma {:induction false} TailRunStops(merge: seq<Value>, mergeErr: Option<Error>, xs: seq<Result<Expansion>>, k: nat, n: nat)
    requires k <= n <= |xs|
    requires TailRun(merge, mergeErr, xs, k).err.Some?
    ensures TailRun(merge, mergeErr, xs, n) == TailRun(merge, mergeErr, xs, k)
    decreases n
  {
    if n > k {
      TailRunStops(merge, mergeErr, xs, k, n - 1);
    }
  }

  /** An error in the merge list stops the loop at its first iteration, before anything is inserted. */
  lemma MergeErrorStopsFirstIteration(merge: seq<Value>, e: Error, xs: seq<Result<Expansion>>, k: nat)
    requires 0 < k <= |xs|
    ensures TailRun(merge, Some(e), xs, k).err.Some? && TailRun(merge, Some(e), xs, k).merge == merge
    decreases k
  {
    if k > 1 {
      MergeErrorStopsFirstIteration(merge, e, xs, k - 1);
    }
  }

  /** Every templated partial names the same scratch file, so they all end up as the same merge entry. */
  lemma TemplatedPartialsShareOnePath(prefix: Value, p: Value, q: Value, readLines: string -> Option<seq<string>>)
    requires p.Dict? && q.Dict?
    requires ExpandPartial(prefix, p, readLines).Ok? && ExpandPartial(prefix, q, readLines).Ok?
    ensures ExpandPartial(prefix, p, readLines).value.path == ExpandPartial(prefix, q, readLines).value.path == ScratchPath
  {
  }

  /** A successful run leaves `p_tools` with its merge entry set to the merge list the loop grew. */
  lemma SuccessfulTail(config: Entries, tools: Entries, readLines: string -> Option<seq<string>>,
                       items: seq<Value>, oldMerge: seq<Value>)
    requires Lookup(tools, "partials") == Some(List(items))
    requires Lookup(tools, "merge") == Some(List(oldMerge))
    requires ProcessPartialsSpec(config, tools, readLines).err.None?
    ensures items != [] && Tail(items) == items[1..]
    ensures AllOk(Expansions(config, items[1..], readLines))
    ensures ProcessPartialsSpec(config, tools, readLines).tools
         == Put(tools, "merge", List(Paths(Expansions(config, items[1..], readLines)) + oldMerge))
  {
    var xs := Expansions(config, Tail(items), readLines);
    assert MergeList(tools) == Ok(oldMerge);
    var st := TailRun(oldMerge, None, xs, |xs|);
    assert items != [];
    TailRunInsertsInOrder(oldMerge, None, xs, |xs|);
    assert xs[|xs| - |xs|..] == xs;
    var tools' := Put(tools, "merge", List(st.merge));
    assert ProcessPartialsSpec(config, tools, readLines) == HeadStep(config, tools', st.scratch, items[0], readLines);
    HeadKeepsTools(config, tools', st.scratch, items[0], readLines);
  }

  /** Nothing succeeds without a `config_file`: every partial is resolved against it. */
  lemma NoConfigFileFails(config: Entries, tools: Entries, readLines: string -> Option<seq<string>>)
    requires Lookup(config, "config_file").None?
    ensures ProcessPartialsSpec(config, tools, readLines).err.Some?
  {
    var pv := Lookup(tools, "partials");
    if pv.Some? && Items(pv.value).Ok? {
      var items := Items(pv.value).value;
      var xs := Expansions(config, Tail(items), readLines);
      if |xs| > 0 {
        // the first iteration already fails: its partial cannot be resolved
        ExpansionsAt(config, Tail(items), readLines, |xs| - 1);
        assert TailRun(MergeStart(tools), MergeError(tools), xs, 1).err.Some?;
        TailRunStops(MergeStart(tools), MergeError(tools), xs, 1, |xs|);
      }
    }
  }

  /**
   * On success the merge list is the paths of `partials[1:]` in their original order followed by
   * the old merge list, each path built from the `config_file` before the call; no other tool
   * setting changes.
   */
  lemma ProcessPartialsMergeList(config: Entries, tools: Entries, readLines: string -> Option<seq<string>>,
                                 items: seq<Value>, oldMerge: seq<Value>)
    requires Lookup(tools, "partials") == Some(List(items))
    requires Lookup(tools, "merge") == Some(List(oldMerge))
    requires ProcessPartialsSpec(config, tools, readLines).err.None?
    ensures items != [] && Lookup(config, "config_file").Some?
    ensures var xs := Expansions(config, items[1..], readLines);
      && AllOk(xs)
      && (forall i :: 1 <= i < |items| ==> xs[i - 1] == ExpandPartial(Lookup(config, "config_file").value, items[i], readLines))
      && var o := ProcessPartialsSpec(config, tools, readLines);
      && Lookup(o.tools, "merge") == Some(List(Paths(xs) + oldMerge))
      && (forall key :: key != "merge" ==> Lookup(o.tools, key) == Lookup(tools, key))
  {
    SuccessfulTail(config, tools, readLines, items, oldMerge);
    if Lookup(config, "config_file").None? {
      NoConfigFileFails(config, tools, readLines);
    }
    TailExpansions(config, items, readLines);
  }

  /** The expansions of the tail are those of `partials[1:]`, position by position, against `config_file`. */
  lemma TailExpansions(config: Entries, items: seq<Value>, readLines: string -> Option<seq<string>>)
    requires items != [] && Lookup(config, "config_file").Some?
    ensures var xs := Expansions(config, items[1..], readLines);
      forall i :: 1 <= i < |items| ==> xs[i - 1] == ExpandPartial(Lookup(config, "config_file").value, items[i], readLines)
  {
    var xs := Expansions(config, items[1..], readLines);
    var prefix := Lookup(config, "config_file").value;
    forall i | 1 <= i < |items| ensures xs[i - 1] == ExpandPartial(prefix, items[i], readLines) {
      assert items[1..][i - 1] == items[i];
      ExpansionsAt(config, items[1..], readLines, i - 1);
    }
  }


  lemma HeadKeepsTools(config: Entries, tools: Entries, scratch: Option<seq<string>>, p0: Value, readLines: string -> Option<seq<string>>)
    ensures HeadStep(config, tools, scratch, p0, readLines).tools == tools
  {
  }

  /** The first partial only ever rewrites `config_file`: a second write replaces the first. */
  lemma HeadWritesConfigFile(config: Entries, tools: Entries, scratch: Option<seq<string>>, p0: Value,
                             readLines: string -> Option<seq<string>>)
    ensures var o := HeadStep(config, tools, scratch, p0, readLines);
      o.config == config || (Has(o.config, "config_file") && o.config == Put(config, "config_file", Lookup(o.config, "config_file").value))
  {
    var o := HeadStep(config, tools, scratch, p0, readLines);
    match Lookup(config, "config_file")
    case None =>
    case Some(prefix) =>
      if p0.Dict? {
        match Lookup(p0.entries, "config_file")
        case None =>
        case Some(name) =>
          match PathOf(prefix, name)
          case Err(e) =>
          case Ok(path) =>
            var config1 := Put(config, "config_file", Str(path));
            match Lookup(p0.entries, "with")
            case None =>
              assert o.config == config1;
            case Some(w) =>
              match Substitute(path, w, readLines)
              case Err(e) =>
                assert o.config == config1;
              case Ok(sc) =>
                PutPut(config, "config_file", Str(path), Str(sc.path));
                assert o.config == Put(config, "config_file", Str(sc.path));
      } else {
        match PathOf(prefix, p0)
        case Err(e) =>
        case Ok(path) =>
          assert o.config == Put(config, "config_file", Str(path));
      }
  }

  /** A plain first partial becomes `config_file + partial + ".yml"`. */
  lemma HeadPlainPartial(config: Entries, tools: Entries, scratch: Option<seq<string>>, c: string, s: string,
                         readLines: string -> Option<seq<string>>)
    requires Lookup(config, "config_file") == Some(Str(c))
    ensures var o := HeadStep(config, tools, scratch, Str(s), readLines);
      o.err.None? && Lookup(o.config, "config_file") == Some(Str(c + s + ".yml")) && o.tools == tools && o.scratch == scratch
  {
  }

  /** A templated first partial makes the scratch file the new `config_file`, holding its substituted lines. */
  lemma HeadTemplatedPartial(config: Entries, tools: Entries, scratch: Option<seq<string>>, p0: Value,
                             readLines: string -> Option<seq<string>>)
    requires p0.Dict?
    requires HeadStep(config, tools, scratch, p0, readLines).err.None?
    ensures var o := HeadStep(config, tools, scratch, p0, readLines);
      && Lookup(o.config, "config_file") == Some(Str(ScratchPath))
      && o.scratch.Some? && o.tools == tools
      && var prefix := Lookup(config, "config_file").value;
      && var path := PathOf(prefix, Lookup(p0.entries, "config_file").value).value;
      && Substitute(path, Lookup(p0.entries, "with").value, readLines) == Ok(Scratch(ScratchPath, o.scratch.value))
  {
  }

  /** With no partials nothing changes and `partials[0]` raises IndexError. */
  lemma NoPartialsIsIndexError(config: Entries, tools: Entries, readLines: string -> Option<seq<string>>)
    requires Lookup(tools, "partials") == Some(List([]))
    ensures ProcessPartialsSpec(config, tools, readLines) == PartialsOutcome(config, tools, None, Some(IndexError))
  {
    if MergeList(tools).Ok? {
      PutSame(tools, "merge");
    }
    assert Tail([]) == [];
  }

  /**
   * The template of a later templated partial is lost: when the first partial is plain, the
   * scratch file ends up with the lines of the first templated partial of the tail.
   */
  lemma ScratchKeepsFirstTemplated(config: Entries, tools: Entries, readLines: string -> Option<seq<string>>,
                                   items: seq<Value>)
    requires Lookup(tools, "partials") == Some(List(items))
    requires ProcessPartialsSpec(config, tools, readLines).err.None?
    ensures items != []
    ensures var o := ProcessPartialsSpec(config, tools, readLines);
      !items[0].Dict? ==> o.scratch == FirstWritten(Expansions(config, items[1..], readLines))
  {
    var xs := Expansions(config, Tail(items), readLines);
    var m := MergeList(tools);
    var merge := if m.Ok? then m.value else [];
    var mergeErr := if m.Err? then Some(m.error) else None;
    var st := TailRun(merge, mergeErr, xs, |xs|);
    var tools' := ToolsAfterTail(tools, st.merge);
    assert st.err.None? && items != [];
    assert ProcessPartialsSpec(config, tools, readLines) == HeadStep(config, tools', st.scratch, items[0], readLines);
    TailRunScratch(merge, mergeErr, xs, |xs|);
    assert xs[|xs| - |xs|..] == xs;
    if !items[0].Dict? {
      HeadPlainKeepsScratch(config, tools', st.scratch, items[0], readLines);
    }
  }

  lemma HeadPlainKeepsScratch(config: Entries, tools: Entries, scratch: Option<seq<string>>, p0: Value, readLines: string -> Option<seq<string>>)
    requires !p0.Dict?
    ensures HeadStep(config, tools, scratch, p0, readLines).scratch == scratch
  {
  }

  /** The loop over the tail has run `n` iterations without an exception, leaving `merge` and `scratch`. */
  ghost predicate TailAt(config: Entries, tools: Entries, tail: seq<Value>, readLines: string -> Option<seq<string>>,
                         n: nat, merge: seq<Value>, scratch: Option<seq<string>>) {
    n <= |tail| && TailRun(MergeStart(tools), MergeError(tools), Expansions(config, tail, readLines), n) == TailState(merge, scratch, None)
  }

  lemma TailAtStart(config: Entries, tools: Entries, tail: seq<Value>, readLines: string -> Option<seq<string>>)
    ensures TailAt(config, tools, tail, readLines, 0, MergeStart(tools), None)
  {
  }

  /** An exception from the expansion of the next partial ends the loop with it. */
  lemma TailAtExpandError(config: Entries, tools: Entries, tail: seq<Value>, readLines: string -> Option<seq<string>>,
                          n: nat, merge: seq<Value>, scratch: Option<seq<string>>)
    requires n < |tail| && TailAt(config, tools, tail, readLines, n, merge, scratch)
    requires Expand(config, tail[|tail| - 1 - n], readLines).Err?
    ensures TailOutcome(config, tools, tail, readLines) == TailState(merge, scratch, Some(Expand(config, tail[|tail| - 1 - n], readLines).error))
  {
    ExpansionsAt(config, tail, readLines, |tail| - 1 - n);
    TailRunNext(MergeStart(tools), MergeError(tools), Expansions(config, tail, readLines), n + 1, merge, scratch);
  }

  /** Without a merge list, the first partial that expands ends the loop at its `insert`. */
  lemma TailAtMergeError(config: Entries, tools: Entries, tail: seq<Value>, readLines: string -> Option<seq<string>>,
                         n: nat, merge: seq<Value>, scratch: Option<seq<string>>)
    requires n < |tail| && TailAt(config, tools, tail, readLines, n, merge, scratch)
    requires Expand(config, tail[|tail| - 1 - n], readLines).Ok? && MergeList(tools).Err?
    ensures var x := Expand(config, tail[|tail| - 1 - n], readLines).value;
      TailOutcome(config, tools, tail, readLines)
        == TailState(merge, if x.written.Some? then x.written else scratch, Some(MergeList(tools).error))
  {
    ExpansionsAt(config, tail, readLines, |tail| - 1 - n);
    TailRunNext(MergeStart(tools), MergeError(tools), Expansions(config, tail, readLines), n + 1, merge, scratch);
  }

  /** Otherwise the path of the partial goes to the front of the merge list and the loop goes on. */
  lemma TailAtNext(config: Entries, tools: Entries, tail: seq<Value>, readLines: string -> Option<seq<string>>,
                   n: nat, merge: seq<Value>, scratch: Option<seq<string>>)
    requires n < |tail| && TailAt(config, tools, tail, readLines, n, merge, scratch)
    requires Expand(config, tail[|tail| - 1 - n], readLines).Ok? && MergeList(tools).Ok?
    ensures var x := Expand(config, tail[|tail| - 1 - n], readLines).value;
      TailAt(config, tools, tail, readLines, n + 1, [Str(x.path)] + merge, if x.written.Some? then x.written else scratch)
  {
    ExpansionsAt(config, tail, readLines, |tail| - 1 - n);
    TailRunNext(MergeStart(tools), MergeError(tools), Expansions(config, tail, readLines), n + 1, merge, scratch);
  }

  lemma TailAtEnd(config: Entries, tools: Entries, tail: seq<Value>, readLines: string -> Option<seq<string>>,
                  merge: seq<Value>, scratch: Option<seq<string>>)
    requires TailAt(config, tools, tail, readLines, |tail|, merge, scratch)
    ensures TailOutcome(config, tools, tail, readLines) == TailState(merge, scratch, None)
  {
  }

  /** Before the loop, the merge list it starts from is the one in `p_tools`. */
  lemma ToolsAfterNoTail(tools: Entries)
    ensures ToolsAfterTail(tools, MergeStart(tools)) == tools
  {
    if MergeList(tools).Ok? {
      PutSame(tools, "merge");
    }
  }

  /** Inserting a path in front of the merge list of `ToolsAfterTail(tools, merge)`. */
  lemma ToolsAfterTailInsert(tools: Entries, merge: seq<Value>, path: string)
    ensures MergeList(tools).Err? ==> ToolsAfterTail(tools, merge) == tools
    ensures MergeList(tools).Ok? ==> MergeList(ToolsAfterTail(tools, merge)) == Ok(merge)
    ensures MergeList(tools).Ok? ==>
      Put(ToolsAfterTail(tools, merge), "merge", List([Str(path)] + merge)) == ToolsAfterTail(tools, [Str(path)] + merge)
  {
    if MergeList(tools).Ok? {
      PutPut(tools, "merge", List(merge), List([Str(path)] + merge));
    }
  }
}
