/**
 * `process_to_be_merged`: the primary configuration file is loaded, every file of the merge list
 * is loaded in order and folded into it with `merge_pipeline`, and the result is written to
 * `out_directory + "/config_files/" + name + ".yml"`, which becomes the new `config_file`.
 *
 * Loading a file (`open` and `yaml.safe_load`) is the parameter `load`, a `Loader`;
 * `merge_pipeline` is the parameter `merge`, about which nothing is assumed.
 */
module Merging {
  import opened Wrappers
  import opened Values

  /**
   * `open` followed by `yaml.safe_load`, for the two kinds of argument `open` accepts: a string
   * names a file, an int is a file descriptor already open (0 is standard input).
   */
  datatype Loader = Loader(file: string -> Result<Value>, fd: int -> Result<Value>)

  /** `open(path)` followed by `yaml.safe_load`: any other kind of value is a TypeError. */
  function LoadPath(path: Value, load: Loader): (r: Result<Value>)
    ensures path.Str? ==> r == load.file(path.s)
    ensures path.Num? ==> r == load.fd(path.n)
    ensures !path.Str? && !path.Num? ==> r == Err(TypeError)
  {
    match path
    case Str(s) => load.file(s)
    case Num(n) => load.fd(n)
    case _ => Err(TypeError)
  }

  predicate AllLoaded(paths: seq<Value>, load: Loader) {
    forall i :: 0 <= i < |paths| ==> LoadPath(paths[i], load).Ok?
  }

  /** The documents of files that all load. */
  function Loaded(paths: seq<Value>, load: Loader): (r: seq<Value>)
    requires AllLoaded(paths, load)
    ensures |r| == |paths| && forall i :: 0 <= i < |paths| ==> Ok(r[i]) == LoadPath(paths[i], load)
  {
    seq(|paths|, i requires 0 <= i < |paths| => LoadPath(paths[i], load).value)
  }

  /** `functools.reduce(merge, docs, acc)`: the reference left fold. */
  function Foldl(merge: (Value, Value) -> Value, acc: Value, docs: seq<Value>): Value
    decreases |docs|
  {
    if docs == [] then acc else Foldl(merge, merge(acc, docs[0]), docs[1..])
  }

  /** The loop of lines 78-83: load each file and merge it in, stopping at the first that fails to load. */
  function MergeFold(merge: (Value, Value) -> Value, acc: Value, paths: seq<Value>, load: Loader): Result<Value>
    decreases |paths|
  {
    if paths == [] then Ok(acc)
    else
      match LoadPath(paths[0], load)
      case Err(e) => Err(e)
      case Ok(doc) => MergeFold(merge, merge(acc, doc), paths[1..], load)
  }

  /** Folding one more document merges it into the fold of the others. */
  lemma {:induction false} FoldlAppend(merge: (Value, Value) -> Value, acc: Value, docs: seq<Value>, doc: Value)
    ensures Foldl(merge, acc, docs + [doc]) == merge(Foldl(merge, acc, docs), doc)
    decreases |docs|
  {
    if docs == [] {
      assert [doc][1..] == [];
    } else {
      assert (docs + [doc])[1..] == docs[1..] + [doc];
      FoldlAppend(merge, merge(acc, docs[0]), docs[1..], doc);
    }
  }

  /** After the first `i` files loaded, the loop goes on from the fold of their documents. */
  lemma {:induction false} MergeFoldSplit(merge: (Value, Value) -> Value, acc: Value, paths: seq<Value>,
                                          load: Loader, i: nat)
    requires i <= |paths| && AllLoaded(paths[..i], load)
    ensures MergeFold(merge, acc, paths, load) == MergeFold(merge, Foldl(merge, acc, Loaded(paths[..i], load)), paths[i..], load)
    decreases i
  {
    if i > 0 {
      var doc := LoadPath(paths[0], load).value;
      assert LoadPath(paths[..i][0], load).Ok?;
      var rest := paths[1..][..i - 1];
      assert rest == paths[..i][1..];
      assert AllLoaded(rest, load) by {
        forall j | 0 <= j < i - 1 ensures LoadPath(rest[j], load).Ok? {
          assert rest[j] == paths[..i][j + 1];
        }
      }
      MergeFoldSplit(merge, merge(acc, doc), paths[1..], load, i - 1);
      assert paths[1..][i - 1..] == paths[i..];
      var docs := Loaded(paths[..i], load);
      assert docs[1..] == Loaded(paths[1..][..i - 1], load);
    }
  }

  /** When every file loads, the loop is exactly the left fold of their documents, in list order. */
  lemma AllLoadedIsFoldl(merge: (Value, Value) -> Value, acc: Value, paths: seq<Value>, load: Loader)
    requires AllLoaded(paths, load)
    ensures MergeFold(merge, acc, paths, load) == Ok(Foldl(merge, acc, Loaded(paths, load)))
  {
    assert paths[..|paths|] == paths;
    MergeFoldSplit(merge, acc, paths, load, |paths|);
  }

  /** The loop fails exactly with the error of the first file that does not load. */
  lemma FirstLoadErrorStops(merge: (Value, Value) -> Value, acc: Value, paths: seq<Value>,
                            load: Loader, i: nat)
    requires i < |paths| && AllLoaded(paths[..i], load) && LoadPath(paths[i], load).Err?
    ensures MergeFold(merge, acc, paths, load) == LoadPath(paths[i], load)
  {
    MergeFoldSplit(merge, acc, paths, load, i);
  }

  /** `out_directory + "/config_files/" + name + ".yml"`: the name must be a string. */
  function OutputPath(outDirectory: string, name: Value): (r: Result<string>)
    ensures r.Ok? <==> name.Str?
    ensures r.Ok? ==> r.value == outDirectory + "/config_files/" + name.s + ".yml"
    ensures r.Err? ==> r == Err(TypeError)
  {
    if name.Str? then Ok(outDirectory + "/config_files/" + name.s + ".yml") else Err(TypeError)
  }

  /** The written path and the merged document. */
  datatype Merged = Merged(path: string, doc: Value)

  /** The whole of `process_to_be_merged`, in the order its operands are evaluated. */
  function ProcessToBeMergedSpec(config: Entries, tools: Entries, outDirectory: string, load: Loader,
                                 merge: (Value, Value) -> Value): (r: Result<Merged>)
    ensures Lookup(config, "config_file").None? ==> r == Err(KeyError("config_file"))
    ensures r.Ok? ==> Lookup(config, "name").Some? && Lookup(config, "name").value.Str?
    ensures r.Ok? ==> r.value.path == outDirectory + "/config_files/" + Lookup(config, "name").value.s + ".yml"
  {
    match Lookup(config, "config_file")
    case None => Err(KeyError("config_file"))
    case Some(cf) =>
      match LoadPath(cf, load)
      case Err(e) => Err(e)
      case Ok(source) =>
        match Lookup(tools, "merge")
        case None => Err(KeyError("merge"))
        case Some(mv) =>
          match Iterate(mv)
          case Err(e) => Err(e)
          case Ok(paths) =>
            match MergeFold(merge, source, paths, load)
            case Err(e) => Err(e)
            case Ok(doc) =>
              match Lookup(config, "name")
              case None => Err(KeyError("name"))
              case Some(name) =>
                match OutputPath(outDirectory, name)
                case Err(e) => Err(e)
                case Ok(path) => Ok(Merged(path, doc))
  }

  /** `p_config` after the call: only `config_file` changes, to the returned path, and only on success. */
  function ConfigAfterMerge(config: Entries, r: Result<Merged>): (c: Entries)
    ensures r.Ok? ==> Lookup(c, "config_file") == Some(Str(r.value.path))
    ensures forall k :: k != "config_file" ==> Lookup(c, k) == Lookup(config, k)
    ensures r.Err? ==> c == config
  {
    if r.Ok? then Put(config, "config_file", Str(r.value.path)) else config
  }

  /**
   * With a loadable primary file, a merge list of loadable files and a string name, the written
   * document is the left fold of `merge` over the loaded files, starting from the primary one.
   */
  lemma MergedIsFoldl(config: Entries, tools: Entries, outDirectory: string, load: Loader,
                      merge: (Value, Value) -> Value, source: Value, paths: seq<Value>, name: string)
    requires Lookup(config, "config_file").Some? && LoadPath(Lookup(config, "config_file").value, load) == Ok(source)
    requires Lookup(tools, "merge") == Some(List(paths)) && AllLoaded(paths, load)
    requires Lookup(config, "name") == Some(Str(name))
    ensures ProcessToBeMergedSpec(config, tools, outDirectory, load, merge)
         == Ok(Merged(outDirectory + "/config_files/" + name + ".yml", Foldl(merge, source, Loaded(paths, load))))
  {
    AllLoadedIsFoldl(merge, source, paths, load);
  }
}
