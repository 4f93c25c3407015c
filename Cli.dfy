/**
 * The `fly set-pipeline` command that `process_cli` assembles from the configuration.  The
 * operands are evaluated left to right, so a missing key or a value of the wrong type is reported
 * for the first field, in the order team, name, config_file, vars_files, vars.
 */
module Cli {
  import opened Wrappers
  import opened Values
  import opened Text
  import opened Flattening

  /** `str(v)`: a string shows as itself; any other value through the `str` the caller supplies. */
  function Show(v: Value, toStr: Value -> string): string {
    if v.Str? then v.s else toStr(v)
  }

  /** `"fly -t " + team + " set-pipeline" + " -p " + name + " -c " + config_file` */
  function Prefix(team: string, name: string, configFile: string): string {
    "fly -t " + team + " set-pipeline" + " -p " + name + " -c " + configFile
  }

  function LoadItems(files: seq<string>): (r: seq<string>)
    ensures |r| == |files| && forall i :: 0 <= i < |files| ==> r[i] == " -l " + files[i]
  {
    seq(|files|, i requires 0 <= i < |files| => " -l " + files[i])
  }

  function VarItems(vars: Entries, toStr: Value -> string): (r: seq<string>)
    ensures |r| == |vars| && forall i :: 0 <= i < |vars| ==> r[i] == " --var " + vars[i].0 + "=" + Show(vars[i].1, toStr)
  {
    seq(|vars|, i requires 0 <= i < |vars| => " --var " + vars[i].0 + "=" + Show(vars[i].1, toStr))
  }

  /** `" ".join([" -l " + l for l in vars_files])` */
  function LoadOptions(files: seq<string>): string {
    Join(" ", LoadItems(files))
  }

  /** `" ".join([" --var " + k + "=" + str(v) for k, v in flat.items()])` */
  function VarOptions(flat: Entries, toStr: Value -> string): string {
    Join(" ", VarItems(flat, toStr))
  }

  /** `config[key]` used as an operand of `str + ...`: a missing key or a non-string is an error. */
  function StrField(config: Entries, key: string): Result<string> {
    match Lookup(config, key)
    case None => Err(KeyError(key))
    case Some(v) => if v.Str? then Ok(v.s) else Err(TypeError)
  }

  predicate AllStrings(vs: seq<Value>) {
    forall i :: 0 <= i < |vs| ==> vs[i].Str?
  }

  function Strings(vs: seq<Value>): (r: seq<string>)
    requires AllStrings(vs)
    ensures |r| == |vs| && forall i :: 0 <= i < |vs| ==> vs[i] == Str(r[i])
  {
    seq(|vs|, i requires 0 <= i < |vs| => vs[i].s)
  }

  /** The items of `vars_files` as the comprehension sees them: each must be a string. */
  function LoadFiles(v: Value): (r: Result<seq<string>>)
    ensures r.Ok? <==> Iterate(v).Ok? && AllStrings(Iterate(v).value)
    ensures v.List? && AllStrings(v.items) ==> r == Ok(Strings(v.items))
  {
    match Iterate(v)
    case Err(e) => Err(e)
    case Ok(vs) => if AllStrings(vs) then Ok(Strings(vs)) else Err(TypeError)
  }

  /** The command string of `process_cli`, or the exception its evaluation raises. */
  function Command(config: Entries, toStr: Value -> string): (r: Result<string>)
    ensures Lookup(config, "team").None? ==> r == Err(KeyError("team"))
    ensures Lookup(config, "team").Some? && !Lookup(config, "team").value.Str? ==> r == Err(TypeError)
    ensures r.Ok? ==> StrField(config, "team").Ok? && StrField(config, "name").Ok? && StrField(config, "config_file").Ok?
    ensures r.Ok? ==> IsPrefix(Prefix(StrField(config, "team").value, StrField(config, "name").value, StrField(config, "config_file").value), r.value)
  {
    match StrField(config, "team")
    case Err(e) => Err(e)
    case Ok(team) =>
      match StrField(config, "name")
      case Err(e) => Err(e)
      case Ok(name) =>
        match StrField(config, "config_file")
        case Err(e) => Err(e)
        case Ok(configFile) =>
          match Lookup(config, "vars_files")
          case None => Err(KeyError("vars_files"))
          case Some(vf) =>
            match LoadFiles(vf)
            case Err(e) => Err(e)
            case Ok(files) =>
              match Lookup(config, "vars")
              case None => Err(KeyError("vars"))
              case Some(vars) =>
                if !vars.Dict? then Err(AttributeError)
                else
                  var p := Prefix(team, name, configFile);
                  var s := p + LoadOptions(files) + VarOptions(Flatten(vars, "", "."), toStr);
                  assert s[..|p|] == p;
                  Ok(s)
  }

  /**
   * A well-typed configuration gives exactly the prefix, then the `-l` options of the files in
   * order, then the `--var` options of the flattened variables in order.
   */
  lemma CommandOfWellTyped(config: Entries, toStr: Value -> string, team: string, name: string,
                           configFile: string, files: seq<Value>, vars: Entries)
    requires Lookup(config, "team") == Some(Str(team))
    requires Lookup(config, "name") == Some(Str(name))
    requires Lookup(config, "config_file") == Some(Str(configFile))
    requires Lookup(config, "vars_files") == Some(List(files)) && AllStrings(files)
    requires Lookup(config, "vars") == Some(Dict(vars))
    ensures Command(config, toStr) ==
      Ok(Prefix(team, name, configFile) + LoadOptions(Strings(files)) + VarOptions(Flatten(Dict(vars), "", "."), toStr))
  {
  }

  /** `" ".join` puts a space before an item that already starts with one: two spaces between `-l` options. */
  lemma LoadOptionsAppend(files: seq<string>, f: string)
    requires files != []
    ensures LoadOptions(files + [f]) == LoadOptions(files) + "  -l " + f
  {
    assert LoadItems(files + [f]) == LoadItems(files) + [" -l " + f];
    JoinAppend(" ", LoadItems(files), " -l " + f);
  }

  lemma LoadOptionsTwo(a: string, b: string)
    ensures LoadOptions([a, b]) == " -l " + a + "  -l " + b
  {
    assert [a, b] == [a] + [b];
    LoadOptionsAppend([a], b);
  }

  /** The same holds for the `--var` options, and nothing separates the two groups. */
  lemma VarOptionsAppend(flat: Entries, k: string, v: Value, toStr: Value -> string)
    requires flat != []
    ensures VarOptions(flat + [(k, v)], toStr) == VarOptions(flat, toStr) + "  --var " + k + "=" + Show(v, toStr)
  {
    var items := VarItems(flat + [(k, v)], toStr);
    var item := " --var " + k + "=" + Show(v, toStr);
    assert items == VarItems(flat, toStr) + [item] by {
      forall i | 0 <= i < |items| ensures items[i] == (VarItems(flat, toStr) + [item])[i] {
        if i < |flat| {
          assert (flat + [(k, v)])[i] == flat[i];
        }
      }
    }
    JoinAppend(" ", VarItems(flat, toStr), " --var " + k + "=" + Show(v, toStr));
  }

  /** No files and no variables: the command is the prefix alone. */
  lemma CommandWithoutOptions(team: string, name: string, configFile: string, toStr: Value -> string)
    ensures var config := [("team", Str(team)), ("name", Str(name)), ("config_file", Str(configFile)),
                           ("vars_files", List([])), ("vars", Dict([]))];
      Command(config, toStr) == Ok(Prefix(team, name, configFile))
  {
    var config := [("team", Str(team)), ("name", Str(name)), ("config_file", Str(configFile)),
                   ("vars_files", List([])), ("vars", Dict([]))];
    assert UniqueKeys(config);
    LookupAt(config, 0);
    LookupAt(config, 1);
    LookupAt(config, 2);
    LookupAt(config, 3);
    LookupAt(config, 4);
    assert LoadItems(Strings([])) == [];
    assert FlatItems(Dict([]), 0, "", ".") == [];
    assert VarItems(Flatten(Dict([]), "", "."), toStr) == [];
    CommandOfWellTyped(config, toStr, team, name, configFile, [], []);
  }

  lemma DictOfSingle(x: (string, Value))
    ensures DictOf([x]) == [x]
  {
    assert [x][1..] == [];
    assert Overlay([], [x]) == Overlay(Put([], x.0, x.1), []);
  }

  /** A nested dict is flattened to its dotted key. */
  lemma FlattenNested(outer: string, inner: string, text: string)
    requires outer != ""
    ensures Flatten(Dict([(outer, Dict([(inner, Str(text))]))]), "", ".") == [(outer + "." + inner, Str(text))]
  {
    var v := Dict([(inner, Str(text))]);
    var d := Dict([(outer, v)]);
    var x := (outer + "." + inner, Str(text));
    assert FlatItems(v, 1, outer, ".") == [];
    assert FlatItems(v, 0, outer, ".") == [x];
    DictOfSingle(x);
    assert Flatten(v, outer, ".") == [x];
    assert FlatItems(d, 1, "", ".") == [];
    assert FlatItems(d, 0, "", ".") == [x];
  }

  lemma VarOptionsSingle(key: string, text: string, toStr: Value -> string)
    ensures VarOptions([(key, Str(text))], toStr) == " --var " + key + "=" + text
  {
    assert VarItems([(key, Str(text))], toStr) == [" --var " + key + "=" + text];
  }

  /** A nested variable is passed under its dotted key. */
  lemma NestedVarIsDotted(outer: string, inner: string, text: string, toStr: Value -> string)
    requires outer != ""
    ensures VarOptions(Flatten(Dict([(outer, Dict([(inner, Str(text))]))]), "", "."), toStr)
         == " --var " + (outer + "." + inner) + "=" + text
  {
    FlattenNested(outer, inner, text);
    VarOptionsSingle(outer + "." + inner, text, toStr);
  }
}
