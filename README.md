# pipeline_maker's `PipelineConfig`, modelled in Dafny

`PipelineConfig` (in `pipeline_maker/pipeline_config.py`) holds the configuration of one
Concourse pipeline in two dicts:

- `p_config` holds what `fly set-pipeline` is given: team, pipeline name, primary configuration file, vars files and vars.
- `p_tools` holds the advanced settings: template, merge list, partials and the generated command line.

The object is built from defaults or from another object. Its methods then do the following:

- they read command-line style arguments into the dicts, each one overriding or extending the stored value;
- they expand the partials into the merge list and a new primary file, templating dict partials with the `((key))` substitution into one scratch file;
- they fold the merge list into the primary document;
- they render the `fly` command, with the nested vars flattened to dotted keys.

The model keeps the object's form:

- `Pipeline.PipelineConfig` is a class with the fields `pConfig` and `pTools`. Its methods update the fields in place, as the Python methods do.
- Every method is proved against a function on the state before the call. The lemmas about those functions state what the code promises.
- Dicts are values (`Values.Entries`, an ordered association list). `d[k] = v` is `Put`, `{**a, **b}` is `Overlay` and `dict(items)` is `DictOf`, each with Python's ordering and last-value-wins rules.
- A Python exception is an `Option<Error>`/`Result`. Where the code raises midway, the model keeps the state the code leaves behind: the assignments already made, the paths already inserted, and the `config_file` already concatenated.

Modules, in dependency order:

- `Wrappers`: `Option`, `Result` and the `Error` kinds.
- `Values`: documents and dicts.
- `Text`: `str.replace`, `str.join` and `str.split`.
- `Substitution`: `replace_config_with`.
- `Flattening`: `flatten`.
- `Merging`: `process_to_be_merged`.
- `Resolution`: `get`, `get_parameter`, `get_list_of_paramters` and the reader's eight assignments.
- `Cli`: the command of `process_cli`.
- `Partials`: `process_partials`.
- `Pipeline`: the class.

The file system, YAML loading, `merge_pipeline` and `str()` of a non-string are parameters:

- `readLines` is path to the file's lines, each with its own line end;
- `load` gives, for a file path and for an open file descriptor, a document or an error;
- `merge` stands for `merge_pipeline`;
- `toStr` stands for `str()` of a non-string.

## Model

| member | source | states |
|---|---|---|
| Values.Lookup | pipeline_maker/pipeline_config.py:162-165 | `k in d`/`d[k]`: absent exactly when no entry has key `k`; otherwise the value of an entry with that key |
| Values.Put | pipeline_maker/pipeline_config.py:148 | `d[k] = v`: `k` now maps to `v`, every other key keeps its value, an existing key keeps its position, a new one is appended at the end |
| Values.PutKeepsUniqueKeys | pipeline_maker/pipeline_config.py:148 | an assignment never creates a duplicate key |
| Values.PutPut | pipeline_maker/pipeline_config.py:113-114 | assigning the same key twice is the same as assigning only the second value |
| Values.Overlay | pipeline_maker/pipeline_config.py:152 | `{**m, **o}`: a key of `o` takes `o`'s last value, any other key keeps `m`'s; `m`'s keys keep their order at the front; unique keys stay unique |
| Values.OverlayKeyOrder | pipeline_maker/pipeline_config.py:187 | `{**m, **o}` keeps `m`'s keys in place and then appends `o`'s new keys, each once, in the order they first appear in `o` |
| Values.OverlayAssoc | pipeline_maker/pipeline_config.py:187 | overlaying a merged dict equals overlaying its two parts one after the other |
| Values.DictOf | pipeline_maker/pipeline_config.py:202 | `dict(items)` has unique keys and maps each key to its last value in `items` |
| Values.Iterate | pipeline_maker/pipeline_config.py:78 | `for m in v`: a list yields its items, a string its characters, a dict its keys; a number or `None` raises |
| Text.ReplaceAllIsJoinOfSplit | pipeline_maker/pipeline_config.py:218 | `line.replace(t, r)` equals `r.join(line.split(t))` |
| Text.JoinSplit | pipeline_maker/pipeline_config.py:218 | splitting on a separator and joining with it gives the string back |
| Text.ReplaceAllByItself | pipeline_maker/pipeline_config.py:218 | replacing a marker by itself leaves the line unchanged |
| Text.ReplaceAllAbsent | pipeline_maker/pipeline_config.py:218 | a line without the marker is unchanged by the replacement |
| Text.SplitPiecesAvoidSeparator | pipeline_maker/pipeline_config.py:218 | no piece of `s.split(sep)` contains `sep` |
| Text.JoinAppend | pipeline_maker/pipeline_config.py:124-125 | `sep.join(parts + [x])` is `sep.join(parts) + sep + x` |
| Substitution.Marker | pipeline_maker/pipeline_config.py:218 | the marker of a key is the key between `((` and `))` |
| Substitution.SubstituteLines | pipeline_maker/pipeline_config.py:215-218 | the rewrite fails exactly when the file has a line and the map is not a dict (AttributeError) or has a non-string value (TypeError) |
| Substitution.Substitute | pipeline_maker/pipeline_config.py:205-220 | a successful rewrite always returns the one scratch path `/tmp/temp_file_name`; a missing file is NotFound |
| Substitution.EmitLength | pipeline_maker/pipeline_config.py:216-218 | the rewrite prints (number of lines) × (number of entries) strings, one per pair of input line and map entry; each keeps its input line's own line end (`print(..., end='')`), so the file is their concatenation |
| Substitution.EmitAt | pipeline_maker/pipeline_config.py:216-218 | printed string `i * n + j` is input line `i` with the marker of entry `j` replaced by its text |
| Substitution.EmptyMapEmptiesTheFile | pipeline_maker/pipeline_config.py:212-218 | with the default empty map nothing is printed, so the scratch file is empty |
| Substitution.SingleEntrySubstitutes | pipeline_maker/pipeline_config.py:216-218 | with one entry the rewrite prints one string per input line, that line with the marker replaced |
| Substitution.MarkerFreeLineIsCopied | pipeline_maker/pipeline_config.py:217-218 | a line with no marker of any key is printed unchanged, once per entry |
| Flattening.Flatten | pipeline_maker/pipeline_config.py:194-202 | the flattened dict has unique keys and no dict value |
| Flattening.FlattenIsDictOfLeaves | pipeline_maker/pipeline_config.py:194-202 | `flatten(d)` is `dict` of the non-dict leaves of `d` in depth-first order, each under its key path joined with `sep` |
| Flattening.TopLevelKey | pipeline_maker/pipeline_config.py:197 | with no parent key, a leaf's flattened key is its path joined with `sep` when the first key is non-empty; an empty first key adds no separator and drops out (`["", "b"]` gives `"b"`) |
| Flattening.KeyOfBelow | pipeline_maker/pipeline_config.py:197 | under a parent key, a leaf's flattened key is the parent, `sep`, then its path joined with `sep` |
| Flattening.EmptyNestedDictVanishes | pipeline_maker/pipeline_config.py:196-201 | an entry whose value is an empty dict contributes no entry, under any parent key |
| Flattening.FlatDictUnchanged | pipeline_maker/pipeline_config.py:194-202 | a dict without nested dicts is returned as it is |
| Merging.LoadPath | pipeline_maker/pipeline_config.py:74-75 | `open(path)` then `yaml.safe_load`: a string is loaded as a file, an int as an open file descriptor, any other value is TypeError |
| Merging.AllLoadedIsFoldl | pipeline_maker/pipeline_config.py:78-83 | when every file loads, the result is `merge_pipeline` folded left over the documents in list order |
| Merging.FirstLoadErrorStops | pipeline_maker/pipeline_config.py:78-83 | the first file that fails to load ends the loop with its error |
| Merging.OutputPath | pipeline_maker/pipeline_config.py:85 | the output path is `out_directory + "/config_files/" + name + ".yml"`, and a non-string name is TypeError |
| Merging.ProcessToBeMergedSpec | pipeline_maker/pipeline_config.py:70-96 | a missing `config_file` is KeyError; a success needs a string name and returns the output path |
| Merging.ConfigAfterMerge | pipeline_maker/pipeline_config.py:94 | after a success `config_file` holds the output path and nothing else changes; after a failure nothing changes |
| Merging.MergedIsFoldl | pipeline_maker/pipeline_config.py:70-96 | with every file loading and a string name, the result is the output path with the left fold of the merge list into the primary document |
| Resolution.Get | pipeline_maker/pipeline_config.py:151-153 | a tool setting shadows a config field of the same name; a key in neither dict is KeyError |
| Resolution.GetParameter | pipeline_maker/pipeline_config.py:155-169 | the flag wins over the name, which wins over the stored value under the alias, which defaults to the name |
| Resolution.Override | pipeline_maker/pipeline_config.py:178-183 | the override is absent when neither the flag nor the name is given, and is never `None` or a bare string |
| Resolution.GetListOfParameters | pipeline_maker/pipeline_config.py:171-191 | a failing `get` is returned; with no override the stored value is returned; list plus list concatenates; dict plus dict overlays; a mismatched override is TypeError |
| Resolution.LoneStringIsAppended | pipeline_maker/pipeline_config.py:179 | a single string given for a list argument is appended as one item |
| Resolution.AssignOutcome | pipeline_maker/pipeline_config.py:53-65 | one assignment succeeds exactly when its resolver does and then stores the resolved value; a raise leaves both dicts unchanged |
| Resolution.ApplyPlanUnfold | pipeline_maker/pipeline_config.py:53-65 | the reader from assignment `i` on is that assignment, then the rest unless it raised |
| Resolution.ReadPlanWellFormed | pipeline_maker/pipeline_config.py:53-65 | every assignment falls back on the key it writes, and no two write the same key |
| Resolution.ApplyPlanKeepsOtherKeys | pipeline_maker/pipeline_config.py:42-67 | reading changes no key outside the eight it assigns |
| Resolution.ApplyPlanStoresResolved | pipeline_maker/pipeline_config.py:42-67 | after a read without exception, each assigned key holds its resolver's value computed against the state before the read |
| Resolution.ApplyPlanFirstError | pipeline_maker/pipeline_config.py:42-67 | a read that raises stops at the first assignment whose resolver fails, and every earlier one succeeded |
| Resolution.ReadKeepsInvariant | pipeline_maker/pipeline_config.py:42-67 | reading keeps the state invariant: unique keys, the five fields, exactly the four tool settings, `merge` and `partials` lists |
| Resolution.DefaultsKeepInvariant | pipeline_maker/pipeline_config.py:21-36 | the built-in defaults satisfy the state invariant |
| Resolution.DefaultToolSettings | pipeline_maker/pipeline_config.py:30-36 | the default tool settings are exactly template, merge, partials and cli, with empty merge and partials lists |
| Resolution.ReadNothingChangesNothing | pipeline_maker/pipeline_config.py:42-67 | reading an empty argument dict from a valid state changes nothing and raises nothing |
| Resolution.SetIsShadowedByTools | pipeline_maker/pipeline_config.py:147-153 | after `set(k, v)`, `get(k)` is `v` unless a tool setting of the same name shadows it |
| Resolution.ConfigPutKeepsInvariant | pipeline_maker/pipeline_config.py:147-148 | any assignment to `p_config` keeps the state invariant |
| Resolution.ToolsPutKeepsInvariant | pipeline_maker/pipeline_config.py:110 | replacing a tool setting keeps the state invariant, as long as `merge` and `partials` stay lists |
| Resolution.CliKeepsInvariant | pipeline_maker/pipeline_config.py:127 | storing the command line keeps the state invariant |
| Cli.LoadFiles | pipeline_maker/pipeline_config.py:124 | the vars files are usable exactly when iteration yields only strings |
| Cli.Command | pipeline_maker/pipeline_config.py:121-125 | a missing team is KeyError and a non-string team is TypeError; a success starts with `fly -t <team> set-pipeline -p <name> -c <config_file>` |
| Cli.CommandOfWellTyped | pipeline_maker/pipeline_config.py:121-125 | for a well-typed configuration the command is the prefix, then the `-l` options, then the `--var` options of the flattened vars |
| Cli.LoadOptionsAppend | pipeline_maker/pipeline_config.py:124 | each further vars file adds `"  -l " + f`, with two spaces |
| Cli.VarOptionsAppend | pipeline_maker/pipeline_config.py:125 | each further variable adds `"  --var " + k + "=" + str(v)` |
| Cli.CommandWithoutOptions | pipeline_maker/pipeline_config.py:121-125 | with no vars files and no vars the command is the prefix alone |
| Cli.NestedVarIsDotted | pipeline_maker/pipeline_config.py:125 | a nested variable is passed under its dotted key |
| Partials.Items | pipeline_maker/pipeline_config.py:100-112 | slicing and indexing `partials` sees a list's items or a string's characters; anything else is TypeError |
| Partials.PathOf | pipeline_maker/pipeline_config.py:104-116 | `prefix + name + ".yml"` succeeds exactly for two strings |
| Partials.ScratchIsNeverAPartial | pipeline_maker/pipeline_config.py:104-105 | a partial's path ends in `.yml`, so it is never the scratch path |
| Partials.ExpandPartial | pipeline_maker/pipeline_config.py:101-109 | a dict partial, when it succeeds, is the scratch path plus written lines; a plain one succeeds exactly for strings and is `config_file + p + ".yml"` |
| Partials.MergeList | pipeline_maker/pipeline_config.py:110 | `insert` needs `merge` to be a list: missing is KeyError, not a list is AttributeError |
| Partials.TailStep | pipeline_maker/pipeline_config.py:100-110 | an iteration succeeds exactly when its path is computed and inserted, and puts the path first in the merge list |
| Partials.TailRunInsertsInOrder | pipeline_maker/pipeline_config.py:100-110 | a loop without exception puts the tail's paths in front of the old merge list in their original order |
| Partials.TailRunScratch | pipeline_maker/pipeline_config.py:100-110 | after the backwards walk the scratch file holds the first templated partial of the tail |
| Partials.TailRunStops | pipeline_maker/pipeline_config.py:100-110 | after an exception no later iteration changes anything |
| Partials.MergeErrorStopsFirstIteration | pipeline_maker/pipeline_config.py:110 | without a merge list the first iteration raises and nothing is inserted |
| Partials.TemplatedPartialsShareOnePath | pipeline_maker/pipeline_config.py:104-105 | all templated partials are inserted under the same scratch path |
| Partials.SuccessfulTail | pipeline_maker/pipeline_config.py:98-116 | after a success, `p_tools` is the old one with `merge` replaced by the tail's paths followed by the old list |
| Partials.ProcessPartialsMergeList | pipeline_maker/pipeline_config.py:98-116 | after a success each tail partial was expanded against the old `config_file`, `merge` is their paths then the old list, and no other tool setting changed |
| Partials.NoConfigFileFails | pipeline_maker/pipeline_config.py:98-116 | without `config_file` the call raises |
| Partials.NoPartialsIsIndexError | pipeline_maker/pipeline_config.py:112 | an empty partials list is IndexError and changes nothing |
| Partials.HeadPlainPartial | pipeline_maker/pipeline_config.py:116 | a plain first partial makes `config_file` `old + p + ".yml"` and touches nothing else |
| Partials.HeadTemplatedPartial | pipeline_maker/pipeline_config.py:112-114 | a templated first partial makes `config_file` the scratch path, left by the substitution of its own file |
| Partials.HeadWritesConfigFile | pipeline_maker/pipeline_config.py:112-116 | the first partial changes at most `config_file` |
| Partials.ScratchKeepsFirstTemplated | pipeline_maker/pipeline_config.py:98-116 | with a plain first partial, the scratch file keeps the first templated partial of the tail |
| Pipeline.MergeKeepsInvariant | pipeline_maker/pipeline_config.py:94 | `process_to_be_merged` keeps the state invariant |
| Pipeline.PartialsKeepInvariant | pipeline_maker/pipeline_config.py:98-116 | `process_partials` keeps the state invariant, whether it raises or not |
| Pipeline.HeadKeepsInvariant | pipeline_maker/pipeline_config.py:112-116 | the head step keeps the state invariant |
| Pipeline.PipelineConfig.constructor | pipeline_maker/pipeline_config.py:15-39 | the dicts are a copy of `default`'s or the built-in defaults, then read from `data` when it is non-empty; a valid default gives a valid object |
| Pipeline.PipelineConfig.ReadPipelineConfig | pipeline_maker/pipeline_config.py:42-67 | the new state and exception are those of the eight assignments run in order from the old state; the invariant is kept |
| Pipeline.PipelineConfig.ReadSingleArgs | pipeline_maker/pipeline_config.py:52-55 | the first three assignments, leaving the rest of the read to do |
| Pipeline.PipelineConfig.ReadMultipleArgs | pipeline_maker/pipeline_config.py:56-60 | assignments four and five, leaving the rest of the read to do |
| Pipeline.PipelineConfig.ReadAdvancedArgs | pipeline_maker/pipeline_config.py:62-65 | the last three assignments, completing the read |
| Pipeline.PipelineConfig.Assign | pipeline_maker/pipeline_config.py:53-65 | one assignment: the rest of the read after it is the rest before it, one step on |
| Pipeline.PipelineConfig.Set | pipeline_maker/pipeline_config.py:147-148 | `p_config[key] = value`, `p_tools` unchanged, the invariant kept |
| Pipeline.PipelineConfig.ReplaceConfigWith | pipeline_maker/pipeline_config.py:212-220 | the two nested loops produce exactly `Substitute`'s result |
| Pipeline.PipelineConfig.ConfigToMerge | pipeline_maker/pipeline_config.py:101-109 | the path of one tail partial, as `Expand` gives it |
| Pipeline.PipelineConfig.ProcessPartials | pipeline_maker/pipeline_config.py:98-116 | the new dicts, exception and scratch content are those of `ProcessPartialsSpec` on the old state; the invariant is kept |
| Pipeline.PipelineConfig.ProcessTail | pipeline_maker/pipeline_config.py:100-110 | the loop's outcome is `TailOutcome`, and `merge` holds the list it grew |
| Pipeline.PipelineConfig.TailIteration | pipeline_maker/pipeline_config.py:101-110 | one iteration takes the loop one partial further, or ends it with that partial's exception |
| Pipeline.PipelineConfig.InsertMerge | pipeline_maker/pipeline_config.py:110 | `merge.insert(0, path)`, or KeyError/AttributeError with nothing changed |
| Pipeline.PipelineConfig.ProcessHead | pipeline_maker/pipeline_config.py:112-116 | the new `config_file`, exception and scratch content are those of `HeadStep` |
| Pipeline.PipelineConfig.ProcessToBeMerged | pipeline_maker/pipeline_config.py:70-96 | the loop's result is `ProcessToBeMergedSpec`, and only `config_file` changes, on success; the invariant is kept |
| Pipeline.PipelineConfig.ProcessCli | pipeline_maker/pipeline_config.py:118-144 | returns `Command` of the configuration and stores it as `p_tools["cli"]` on success; the invariant is kept |

## Left out

- Logging (lines 49-50, 72, 79) is left out because it has no effect on the state.
- `copy.deepcopy` (lines 18-19) is implicit: dicts are values, so a copy cannot alias its original.
- The directory creation and the `.cmd` file written by `process_cli` (lines 129-142) are left out. They are file-system effects; the model returns and stores the command.
- The directory creation and `yaml.dump` of `process_to_be_merged` (lines 87-91) are left out. The model returns the merged document with its output path.
- `open` and `yaml.safe_load` are the `load` parameter; closing the file at the end of the `with` block is not modelled. `merge_pipeline` is the `merge` parameter: `pipeline_merger.py` is not part of this model.
- `tempfile.gettempdir()` is fixed at `/tmp`.
- `shutil.copy2` and `fileinput` are modelled by `readLines` and the returned scratch lines, not by a file system.
- Scalars are strings, numbers and `None` only. Floats, booleans and YAML's other scalar types are not distinguished.
- Numbers are unbounded integers.
- Pipeline.PipelineConfig.constructor requires that reading `data` raises nothing, because a constructor cannot return an exception. `read_pipeline_config` itself models the raising case.
- Pipeline.PipelineConfig.constructor treats `data=None` and `data={}` alike as the empty argument dict, which is falsy in both cases. A non-dict `data` is not modelled.
- Partials.Items treats slicing a dict `partials` value as TypeError. What Python raises there depends on its version.
- Flattening.Flatten: keys are strings, so a non-string key, which makes `parent_key + sep + k` raise, is not modelled.
- Flattening.Flatten: a leaf is any non-dict value, which is what the bare `except` gives for the modelled value types.
- Substitution.Substitute: after a failed rewrite the scratch file's content is not modelled. Only the exception is returned.
- `str(v)` of a non-string value is the `toStr` parameter in `Cli.Command`.
- `get` and `get_parameter` read the object's dicts but change nothing, so they are functions of the two dicts (`Resolution.Get`, `Resolution.GetParameter`) rather than methods.
- `read_pipeline_config` is written as three methods. They follow its three commented groups of assignments, and their composition is proved equal to the eight assignments run in order.
- The default `out_directory="./"` (lines 70 and 118) is not modelled: `Pipeline.PipelineConfig.ProcessToBeMerged` always takes the directory as an argument, and `process_cli` uses it only for the `.cmd` file, which is left out.
- Substitution follows the code:
  - an empty map empties the file, because the code prints one string per pair of line and entry;
  - with several entries, each line appears once per entry, each copy with one entry substituted;
  - all templated partials share one scratch path, so the last one written wins.
- A failure midway keeps the changes already made, as the code does.
