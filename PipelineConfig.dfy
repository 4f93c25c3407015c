/**
 * The `PipelineConfig` object: the two dicts `p_config` (what `fly` is given) and `p_tools`
 * (template, merge list, partials and the command line), updated in place by its methods.  Each
 * method is proved against the function of the module that describes it, on the state before
 * the call; the file system, YAML loading and `merge_pipeline` are parameters.
 */
module Pipeline {
  import opened Wrappers
  import opened Values
  import opened Text
  import opened Substitution
  import opened Resolution
  import opened Partials
  import opened Merging
  import opened Cli

  class PipelineConfig {
    var pConfig: Entries
    var pTools: Entries

    /** Both dicts have the keys the constructor gives them, and the list-valued tool settings stay lists. */
    ghost predicate Valid()
      reads this
    {
      StateInvariant(pConfig, pTools)
    }

    /**
     * `PipelineConfig(default, data)`: a copy of `default`'s dicts, or the built-in defaults, then
     * `read_pipeline_config(data)` when `data` is not empty.  A constructor cannot hand back an
     * exception, so reading `data` must not raise.
     */
    constructor(default: PipelineConfig?, data: Entries)
      requires data != [] ==>
        ApplyPlan(if default != null then default.pConfig else DefaultConfig(),
                  if default != null then default.pTools else DefaultTools(), data, ReadPlan).err.None?
      ensures var config := if default != null then default.pConfig else DefaultConfig();
        var tools := if default != null then default.pTools else DefaultTools();
        ReadOutcome(pConfig, pTools, None) == if data == [] then ReadOutcome(config, tools, None) else ApplyPlan(config, tools, data, ReadPlan)
      ensures default == null || default.Valid() ==> Valid()
    {
      if default != null {
        pConfig := default.pConfig;
        pTools := default.pTools;
      } else {
        pConfig := DefaultConfig();
        pTools := DefaultTools();
        DefaultsKeepInvariant();
      }
      new;
      if data != [] {
        ReadKeepsInvariant(pConfig, pTools, data);
        var err := ReadPipelineConfig(data);
      }
    }

    /**
     * `read_pipeline_config(data)`: the eight assignments in program order, each resolved against
     * the state the earlier ones left.  The first exception stops it and is returned; the
     * assignments already made stay.
     */
    method ReadPipelineConfig(data: Entries) returns (err: Option<Error>)
      modifies this
      ensures ReadOutcome(pConfig, pTools, err) == ApplyPlan(old(pConfig), old(pTools), data, ReadPlan)
      ensures old(Valid()) ==> Valid()
    {
      ReadKeepsInvariant(pConfig, pTools, data);
      ghost var goal := ApplyPlan(pConfig, pTools, data, ReadPlan);
      assert ReadPlan[0..] == ReadPlan;
      err := ReadSingleArgs(data, goal);
      if err.Some? { return; }
      err := ReadMultipleArgs(data, goal);
      if err.Some? { return; }
      err := ReadAdvancedArgs(data, goal);
    }

    /** Lines 52-55, the `fly` arguments given once: the first three assignments of the reader. */
    method ReadSingleArgs(data: Entries, ghost goal: ReadOutcome) returns (err: Option<Error>)
      requires ApplyPlan(pConfig, pTools, data, ReadPlan[0..]) == goal
      modifies this
      ensures err.Some? ==> ReadOutcome(pConfig, pTools, err) == goal
      ensures err.None? ==> ApplyPlan(pConfig, pTools, data, ReadPlan[3..]) == goal
    {
      ghost var i := 0;
      // team: the -t flag, else "team", else the stored team
      err := Assign(data, ReadPlan[0], i, goal);
      if err.Some? { return; }
      i := i + 1;
      // pipeline name: the -p flag, else "pipeline", else the stored name
      err := Assign(data, ReadPlan[1], i, goal);
      if err.Some? { return; }
      i := i + 1;
      // primary file: the -c flag, else "config", else the stored config_file
      err := Assign(data, ReadPlan[2], i, goal);
      if err.Some? { return; }
    }

    /** Lines 56-60, the `fly` arguments that may be given many times: assignments four and five. */
    method ReadMultipleArgs(data: Entries, ghost goal: ReadOutcome) returns (err: Option<Error>)
      requires ApplyPlan(pConfig, pTools, data, ReadPlan[3..]) == goal
      modifies this
      ensures err.Some? ==> ReadOutcome(pConfig, pTools, err) == goal
      ensures err.None? ==> ApplyPlan(pConfig, pTools, data, ReadPlan[5..]) == goal
    {
      ghost var i := 3;
      // vars files: the stored list extended by -l or "load-vars-from"
      err := Assign(data, ReadPlan[3], i, goal);
      if err.Some? { return; }
      i := i + 1;
      // vars: the stored dict overlaid with -v or "var"
      err := Assign(data, ReadPlan[4], i, goal);
      if err.Some? { return; }
    }

    /** Lines 62-65, the advanced arguments: the last three assignments of the reader. */
    method ReadAdvancedArgs(data: Entries, ghost goal: ReadOutcome) returns (err: Option<Error>)
      requires ApplyPlan(pConfig, pTools, data, ReadPlan[5..]) == goal
      modifies this
      ensures ReadOutcome(pConfig, pTools, err) == goal
    {
      ghost var i := 5;
      // template: the -tpl flag, else "template", else the stored template
      err := Assign(data, ReadPlan[5], i, goal);
      if err.Some? { return; }
      i := i + 1;
      // merge list: the stored list extended by -m or "merge"
      err := Assign(data, ReadPlan[6], i, goal);
      if err.Some? { return; }
      i := i + 1;
      // partials: the stored list extended by -s or "partials"
      err := Assign(data, ReadPlan[7], i, goal);
      if err.Some? { return; }
      assert ReadPlan[8..] == [];
    }

    /**
     * Line `i` of the reader, `target[key] = resolver(data, flag, name, alias)` for the step `s`:
     * what is left of the read after it is what was left before it without its first line.
     */
    method Assign(data: Entries, s: Step, ghost i: nat, ghost goal: ReadOutcome) returns (err: Option<Error>)
      requires i < |ReadPlan| && s == ReadPlan[i]
      requires ApplyPlan(pConfig, pTools, data, ReadPlan[i..]) == goal
      modifies this
      ensures err.Some? ==> ReadOutcome(pConfig, pTools, err) == goal
      ensures err.None? ==> ApplyPlan(pConfig, pTools, data, ReadPlan[i + 1..]) == goal
    {
      ApplyPlanUnfold(pConfig, pTools, data, ReadPlan, i);
      var v := Resolve(pConfig, pTools, data, s);
      if v.Err? {
        return Some(v.error);
      }
      if s.target.InConfig? {
        pConfig := Put(pConfig, s.key, v.value);
      } else {
        pTools := Put(pTools, s.key, v.value);
      }
      return None;
    }

    /** `set(key, value)`: `p_config[key] = value`. */
    method Set(key: string, value: Value)
      modifies this
      ensures pConfig == Put(old(pConfig), key, value) && pTools == old(pTools)
      ensures Lookup(pConfig, key) == Some(value)
      ensures old(Valid()) ==> Valid()
    {
      var config := Put(pConfig, key, value);
      if StateInvariant(pConfig, pTools) {
        ConfigPutKeepsInvariant(pConfig, pTools, key, value);
      }
      pConfig := config;
    }

    /**
     * `replace_config_with(config_file, to_replace)`: copy the file to the scratch path, then for
     * every line and every entry print the line with that entry's marker replaced.
     */
    method ReplaceConfigWith(configFile: string, toReplace: Value, readLines: string -> Option<seq<string>>)
      returns (r: Result<Scratch>)
      ensures r == Substitute(configFile, toReplace, readLines)
    {
      var copied := readLines(configFile);
      if copied.None? {
        return Err(NotFound(configFile));
      }
      var lines := copied.value;
      var out: seq<string> := [];
      var i := 0;
      while i < |lines|
        invariant 0 <= i <= |lines|
        invariant i == 0 ==> out == []
        invariant i > 0 ==> toReplace.Dict? && AllStr(toReplace.entries) && out == Emit(lines[..i], Pairs(toReplace.entries))
      {
        if !toReplace.Dict? {
          return Err(AttributeError);
        }
        var entries := toReplace.entries;
        var printed: seq<string> := [];
        var j := 0;
        while j < |entries|
          invariant 0 <= j <= |entries|
          invariant AllStr(entries[..j])
          invariant printed == EmitLine(lines[i], Pairs(entries[..j]))
        {
          if !entries[j].1.Str? {
            assert !AllStr(entries);
            return Err(TypeError);
          }
          assert AllStr(entries[..j + 1]) by {
            assert forall n :: 0 <= n < j ==> entries[..j + 1][n] == entries[..j][n];
          }
          EmitLineSnoc(lines[i], entries, j);
          printed := printed + [ReplaceAll(lines[i], Marker(entries[j].0), entries[j].1.s)];
          j := j + 1;
        }
        assert entries[..j] == entries;
        EmitSnoc(lines, Pairs(entries), i);
        out := out + printed;
        i := i + 1;
      }
      assert lines[..i] == lines;
      return Ok(Scratch(ScratchPath, out));
    }

    /** The path one partial of the tail stands for, templating it first when it is a dict. */
    method ConfigToMerge(p: Value, readLines: string -> Option<seq<string>>) returns (r: Result<Expansion>)
      ensures r == Expand(pConfig, p, readLines)
    {
      var prefix := Lookup(pConfig, "config_file");
      if prefix.None? {
        return Err(KeyError("config_file"));
      }
      if p.Dict? {
        var name := Lookup(p.entries, "config_file");
        if name.None? {
          return Err(KeyError("config_file"));
        }
        var path := PathOf(prefix.value, name.value);
        if path.Err? {
          return Err(path.error);
        }
        var with := Lookup(p.entries, "with");
        if with.None? {
          return Err(KeyError("with"));
        }
        var sc := ReplaceConfigWith(path.value, with.value, readLines);
        if sc.Err? {
          return Err(sc.error);
        }
        return Ok(Expansion(sc.value.path, Some(sc.value.lines)));
      } else {
        var path := PathOf(prefix.value, p);
        if path.Err? {
          return Err(path.error);
        }
        return Ok(Expansion(path.value, None));
      }
    }

    /**
     * `process_partials()`: the tail of `partials` walked backwards, each path put at the front
     * of `merge`, then the first partial made the new `config_file`.  Also returned: the lines
     * the scratch file was last given, if any.
     */
    method ProcessPartials(readLines: string -> Option<seq<string>>) returns (err: Option<Error>, scratch: Option<seq<string>>)
      modifies this
      ensures var o := ProcessPartialsSpec(old(pConfig), old(pTools), readLines);
        pConfig == o.config && pTools == o.tools && err == o.err && scratch == o.scratch
      ensures old(Valid()) ==> Valid()
    {
      if Valid() {
        PartialsKeepInvariant(pConfig, pTools, readLines);
      }
      var pv := Lookup(pTools, "partials");
      if pv.None? {
        return Some(KeyError("partials")), None;
      }
      var items := Items(pv.value);
      if items.Err? {
        return Some(items.error), None;
      }
      ghost var merge;
      err, scratch, merge := ProcessTail(Tail(items.value), readLines);
      if err.Some? {
        return;
      }
      if items.value == [] {
        return Some(IndexError), scratch;
      }
      err, scratch := ProcessHead(items.value[0], scratch, readLines);
    }

    /** Lines 100-110: the loop over the later partials, last first, each path put at the front of the merge list. */
    method ProcessTail(tail: seq<Value>, readLines: string -> Option<seq<string>>)
      returns (err: Option<Error>, scratch: Option<seq<string>>, ghost merge: seq<Value>)
      modifies this`pTools
      ensures TailOutcome(pConfig, old(pTools), tail, readLines) == TailState(merge, scratch, err)
      ensures pTools == ToolsAfterTail(old(pTools), merge)
    {
      scratch := None;
      ghost var tools0 := pTools;
      merge := MergeStart(tools0);
      TailAtStart(pConfig, tools0, tail, readLines);
      ToolsAfterNoTail(tools0);
      for n := 0 to |tail|
        invariant TailAt(pConfig, tools0, tail, readLines, n, merge, scratch)
        invariant pTools == ToolsAfterTail(tools0, merge)
      {
        ghost var merge';
        err, scratch, merge' := TailIteration(tail[|tail| - 1 - n], readLines, tail, n, tools0, merge, scratch);
        if err.Some? {
          return;
        }
        merge := merge';
      }
      TailAtEnd(pConfig, tools0, tail, readLines, merge, scratch);
      err := None;
    }

    /**
     * One pass of the loop body of lines 100-110, on the partial `n` places from the end of `tail`:
     * its path is computed and then inserted in front of the merge list.
     */
    method TailIteration(p: Value, readLines: string -> Option<seq<string>>, ghost tail: seq<Value>, ghost n: nat,
                         ghost tools0: Entries, ghost merge: seq<Value>, scratch0: Option<seq<string>>)
      returns (err: Option<Error>, scratch: Option<seq<string>>, ghost merge': seq<Value>)
      requires n < |tail| && p == tail[|tail| - 1 - n]
      requires TailAt(pConfig, tools0, tail, readLines, n, merge, scratch0)
      requires pTools == ToolsAfterTail(tools0, merge)
      modifies this`pTools
      ensures err.Some? ==> TailOutcome(pConfig, tools0, tail, readLines) == TailState(merge, scratch, err) && pTools == old(pTools)
      ensures err.None? ==> TailAt(pConfig, tools0, tail, readLines, n + 1, merge', scratch) && pTools == ToolsAfterTail(tools0, merge')
    {
      scratch := scratch0;
      merge' := merge;
      var x := ConfigToMerge(p, readLines);
      if x.Err? {
        TailAtExpandError(pConfig, tools0, tail, readLines, n, merge, scratch);
        return Some(x.error), scratch, merge';
      }
      if x.value.written.Some? {
        scratch := x.value.written;
      }
      ToolsAfterTailInsert(tools0, merge, x.value.path);
      err := InsertMerge(x.value.path);
      if err.Some? {
        TailAtMergeError(pConfig, tools0, tail, readLines, n, merge, scratch0);
        return;
      }
      TailAtNext(pConfig, tools0, tail, readLines, n, merge, scratch0);
      merge' := [Str(x.value.path)] + merge;
    }

    /** Line 110: the path goes to the front of the merge list. */
    method InsertMerge(path: string) returns (err: Option<Error>)
      modifies this`pTools
      ensures var m := MergeList(old(pTools));
        && (m.Err? ==> err == Some(m.error) && pTools == old(pTools))
        && (m.Ok? ==> err == None && pTools == Put(old(pTools), "merge", List([Str(path)] + m.value)))
    {
      var list := Lookup(pTools, "merge");
      if list.None? {
        return Some(KeyError("merge"));
      }
      if !list.value.List? {
        return Some(AttributeError);
      }
      pTools := Put(pTools, "merge", List([Str(path)] + list.value.items));
      err := None;
    }

    /** Lines 112-116: the first partial, relative to the current `config_file`, becomes the new one. */
    method ProcessHead(p0: Value, scratch0: Option<seq<string>>, readLines: string -> Option<seq<string>>)
      returns (err: Option<Error>, scratch: Option<seq<string>>)
      modifies this
      ensures var o := HeadStep(old(pConfig), old(pTools), scratch0, p0, readLines);
        pConfig == o.config && pTools == o.tools && err == o.err && scratch == o.scratch
    {
      scratch := scratch0;
      var prefix := Lookup(pConfig, "config_file");
      if prefix.None? {
        return Some(KeyError("config_file")), scratch;
      }
      if p0.Dict? {
        var name := Lookup(p0.entries, "config_file");
        if name.None? {
          return Some(KeyError("config_file")), scratch;
        }
        var path := PathOf(prefix.value, name.value);
        if path.Err? {
          return Some(path.error), scratch;
        }
        pConfig := Put(pConfig, "config_file", Str(path.value));
        var with := Lookup(p0.entries, "with");
        if with.None? {
          return Some(KeyError("with")), scratch;
        }
        var sc := ReplaceConfigWith(path.value, with.value, readLines);
        if sc.Err? {
          return Some(sc.error), scratch;
        }
        pConfig := Put(pConfig, "config_file", Str(sc.value.path));
        scratch := Some(sc.value.lines);
      } else {
        var path := PathOf(prefix.value, p0);
        if path.Err? {
          return Some(path.error), scratch;
        }
        pConfig := Put(pConfig, "config_file", Str(path.value));
      }
      err := None;
    }

    /**
     * `process_to_be_merged(out_directory)`: load the primary file, fold every file of the merge
     * list into it in order, and make the output path the new `config_file`.  Returns that path
     * with the document written there.
     */
    method ProcessToBeMerged(outDirectory: string, load: Loader, merge: (Value, Value) -> Value)
      returns (r: Result<Merged>)
      modifies this
      ensures r == ProcessToBeMergedSpec(old(pConfig), old(pTools), outDirectory, load, merge)
      ensures pConfig == ConfigAfterMerge(old(pConfig), r) && pTools == old(pTools)
      ensures old(Valid()) ==> Valid()
    {
      var config := pConfig;
      var configFile := Lookup(config, "config_file");
      if configFile.None? {
        return Err(KeyError("config_file"));
      }
      var source := LoadPath(configFile.value, load);
      if source.Err? {
        return Err(source.error);
      }
      var list := Lookup(pTools, "merge");
      if list.None? {
        return Err(KeyError("merge"));
      }
      var paths := Iterate(list.value);
      if paths.Err? {
        return Err(paths.error);
      }
      var ps := paths.value;
      var doc := source.value;
      var i := 0;
      while i < |ps|
        invariant 0 <= i <= |ps|
        invariant AllLoaded(ps[..i], load)
        invariant doc == Foldl(merge, source.value, Loaded(ps[..i], load))
        invariant pConfig == old(pConfig) && pTools == old(pTools)
      {
        var next := LoadPath(ps[i], load);
        if next.Err? {
          FirstLoadErrorStops(merge, source.value, ps, load, i);
          return Err(next.error);
        }
        FoldlAppend(merge, source.value, Loaded(ps[..i], load), next.value);
        assert AllLoaded(ps[..i + 1], load) by {
          assert forall n :: 0 <= n < i ==> ps[..i + 1][n] == ps[..i][n];
        }
        assert Loaded(ps[..i + 1], load) == Loaded(ps[..i], load) + [next.value] by {
          assert forall n :: 0 <= n < i ==> ps[..i + 1][n] == ps[..i][n];
        }
        doc := merge(doc, next.value);
        i := i + 1;
      }
      assert ps[..i] == ps;
      AllLoadedIsFoldl(merge, source.value, ps, load);
      var name := Lookup(config, "name");
      if name.None? {
        return Err(KeyError("name"));
      }
      var out := OutputPath(outDirectory, name.value);
      if out.Err? {
        return Err(out.error);
      }
      if StateInvariant(config, pTools) {
        MergeKeepsInvariant(config, pTools, Ok(Merged(out.value, doc)));
      }
      pConfig := Put(config, "config_file", Str(out.value));
      return Ok(Merged(out.value, doc));
    }

    /** `process_cli()`: the `fly set-pipeline` command, also stored as `p_tools["cli"]`. */
    method ProcessCli(toStr: Value -> string) returns (r: Result<string>)
      modifies this`pTools
      ensures r == Command(pConfig, toStr)
      ensures pTools == if r.Ok? then Put(old(pTools), "cli", Str(r.value)) else old(pTools)
      ensures old(Valid()) ==> Valid()
    {
      r := Command(pConfig, toStr);
      if r.Ok? {
        CliKeepsInvariant(pConfig, pTools, Str(r.value));
        pTools := Put(pTools, "cli", Str(r.value));
      }
    }
  }

  /** `process_to_be_merged` keeps the invariant: it only ever rewrites `config_file`. */
  lemma MergeKeepsInvariant(config: Entries, tools: Entries, r: Result<Merged>)
    requires StateInvariant(config, tools)
    ensures StateInvariant(ConfigAfterMerge(config, r), tools)
  {
    if r.Ok? {
      ConfigPutKeepsInvariant(config, tools, "config_file", Str(r.value.path));
    }
  }

  /** `process_partials` keeps the invariant, whether it succeeds or raises: `merge` stays a list. */
  lemma PartialsKeepInvariant(config: Entries, tools: Entries, readLines: string -> Option<seq<string>>)
    requires StateInvariant(config, tools)
    ensures var o := ProcessPartialsSpec(config, tools, readLines); StateInvariant(o.config, o.tools)
  {
    var pv := Lookup(tools, "partials");
    if pv.Some? && Items(pv.value).Ok? {
      var items := Items(pv.value).value;
      var st := TailOutcome(config, tools, Tail(items), readLines);
      var tools' := ToolsAfterTail(tools, st.merge);
      assert StateInvariant(config, tools') by {
        if MergeList(tools).Ok? {
          ToolsPutKeepsInvariant(config, tools, "merge", List(st.merge));
        }
      }
      if st.err.None? && items != [] {
        HeadKeepsInvariant(config, tools', st.scratch, items[0], readLines);
      }
    }
  }

  lemma HeadKeepsInvariant(config: Entries, tools: Entries, scratch: Option<seq<string>>, p0: Value,
                           readLines: string -> Option<seq<string>>)
    requires StateInvariant(config, tools)
    ensures var o := HeadStep(config, tools, scratch, p0, readLines); StateInvariant(o.config, o.tools)
  {
    var o := HeadStep(config, tools, scratch, p0, readLines);
    HeadKeepsTools(config, tools, scratch, p0, readLines);
    HeadWritesConfigFile(config, tools, scratch, p0, readLines);
    if o.config != config {
      ConfigPutKeepsInvariant(config, tools, "config_file", Lookup(o.config, "config_file").value);
    }
  }
}
