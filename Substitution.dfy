/**
 * Placeholder substitution (`replace_config_with`).  The file is copied to one fixed scratch path
 * and rewritten in place: for every line, and for every replacement entry in order, the line
 * with each `((key))` replaced by the entry's text is printed.  So each input line yields one
 * output line per entry, an empty map empties the file, and the result is always the scratch path.
 */
module Substitution {
  import opened Wrappers
  import opened Values
  import opened Text

  /** `tempfile.gettempdir()`, fixed at the POSIX default. */
  const TempDir: string := "/tmp"

  /** `os.path.join(tempfile.gettempdir(), 'temp_file_name')`: the one scratch path every substitution writes. */
  const ScratchPath: string := TempDir + "/" + "temp_file_name"

  /** The marker a key stands for in the text: `((key))`. */
  function Marker(key: string): (m: string)
    ensures |m| == |key| + 4 && m[..2] == "((" && m[|m| - 2..] == "))" && m[2..|m| - 2] == key
  {
    "((" + key + "))"
  }

  /** Every value of the map is a string, so `str.replace` accepts it. */
  predicate AllStr(entries: Entries) {
    forall j :: 0 <= j < |entries| ==> entries[j].1.Str?
  }

  function Pairs(entries: Entries): (r: seq<(string, string)>)
    requires AllStr(entries)
    ensures |r| == |entries|
    ensures forall j :: 0 <= j < |entries| ==> entries[j] == (r[j].0, Str(r[j].1))
  {
    seq(|entries|, j requires 0 <= j < |entries| => (entries[j].0, entries[j].1.s))
  }

  /** The `(key, text)` pairs that `to_replace.items()` yields, or the error raised when a line is processed. */
  function Replacements(toReplace: Value): Result<seq<(string, string)>>
  {
    if !toReplace.Dict? then Err(AttributeError)
    else if !AllStr(toReplace.entries) then Err(TypeError)
    else Ok(Pairs(toReplace.entries))
  }

  /** The lines printed for one input line: one per entry, in entry order. */
  function EmitLine(line: string, pairs: seq<(string, string)>): seq<string>
  {
    seq(|pairs|, j requires 0 <= j < |pairs| => ReplaceAll(line, Marker(pairs[j].0), pairs[j].1))
  }

  /**
   * The strings printed for a whole file, line after line.  A line read keeps its own line end and
   * `print(..., end='')` adds none, so the file's content is the concatenation of these strings.
   */
  function Emit(lines: seq<string>, pairs: seq<(string, string)>): seq<string>
  {
    if lines == [] then []
    else Emit(lines[..|lines| - 1], pairs) + EmitLine(lines[|lines| - 1], pairs)
  }

  /**
   * The content of the scratch file after the rewrite, or the error the rewrite raises: only for a
   * file with at least one line, AttributeError when the map is not a dict and TypeError when one
   * of its values is not a string.
   */
  function SubstituteLines(lines: seq<string>, toReplace: Value): (r: Result<seq<string>>)
    ensures r.Err? <==> lines != [] && (!toReplace.Dict? || exists j :: 0 <= j < |toReplace.entries| && !toReplace.entries[j].1.Str?)
    ensures lines != [] && !toReplace.Dict? ==> r == Err(AttributeError)
    ensures lines != [] && toReplace.Dict? && !AllStr(toReplace.entries) ==> r == Err(TypeError)
  {
    if lines == [] then Ok([])
    else
      match Replacements(toReplace)
      case Err(e) => Err(e)
      case Ok(pairs) => Ok(Emit(lines, pairs))
  }

  datatype Scratch = Scratch(path: string, lines: seq<string>)

  /**
   * `replace_config_with(config_file, to_replace)` on the file system `readLines`: the path it
   * returns and the lines it leaves in the scratch file.  A missing source file is NotFound.
   */
  function Substitute(configFile: string, toReplace: Value, readLines: string -> Option<seq<string>>): (r: Result<Scratch>)
    ensures r.Ok? ==> r.value.path == ScratchPath
    ensures readLines(configFile).None? ==> r == Err(NotFound(configFile))
  {
    match readLines(configFile)
    case None => Err(NotFound(configFile))
    case Some(lines) =>
      match SubstituteLines(lines, toReplace)
      case Err(e) => Err(e)
      case Ok(out) => Ok(Scratch(ScratchPath, out))
  }

  /** Exactly one output line per pair of input line and entry. */
  lemma {:induction false} EmitLength(lines: seq<string>, pairs: seq<(string, string)>)
    ensures |Emit(lines, pairs)| == |lines| * |pairs|
  {
    if lines != [] {
      EmitLength(lines[..|lines| - 1], pairs);
      assert |lines| * |pairs| == (|lines| - 1) * |pairs| + |pairs|;
    }
  }

  /**
   * The output is in line order and, within a line, in entry order: output line `i * |pairs| + j`
   * is input line `i` with entry `j` substituted.
   */
  lemma {:induction false} EmitAt(lines: seq<string>, pairs: seq<(string, string)>, i: nat, j: nat)
    requires i < |lines| && j < |pairs|
    ensures |Emit(lines, pairs)| == |lines| * |pairs|
    ensures i * |pairs| + j < |lines| * |pairs|
    ensures Emit(lines, pairs)[i * |pairs| + j] == ReplaceAll(lines[i], Marker(pairs[j].0), pairs[j].1)
  {
    var n := |lines|;
    var init := lines[..n - 1];
    EmitLength(lines, pairs);
    EmitLength(init, pairs);
    assert n * |pairs| == (n - 1) * |pairs| + |pairs|;
    if i < n - 1 {
      EmitAt(init, pairs, i, j);
      assert init[i] == lines[i];
    } else {
      assert i * |pairs| == (n - 1) * |pairs|;
      assert Emit(lines, pairs)[i * |pairs| + j] == EmitLine(lines[n - 1], pairs)[j];
    }
  }

  /** With an empty map nothing is printed, so the scratch file ends up empty. */
  lemma EmptyMapEmptiesTheFile(lines: seq<string>)
    ensures SubstituteLines(lines, Dict([])) == Ok([])
  {
    if lines != [] {
      EmitLength(lines, []);
    }
  }

  /** With one entry the rewrite is ordinary line-by-line substitution. */
  lemma {:induction false} SingleEntrySubstitutes(lines: seq<string>, key: string, text: string)
    ensures var r := SubstituteLines(lines, Dict([(key, Str(text))]));
      && r.Ok? && |r.value| == |lines|
      && forall i :: 0 <= i < |lines| ==> r.value[i] == ReplaceAll(lines[i], Marker(key), text)
  {
    if lines != [] {
      var pairs := Pairs([(key, Str(text))]);
      assert pairs == [(key, text)];
      EmitLength(lines, pairs);
      forall i | 0 <= i < |lines|
        ensures Emit(lines, pairs)[i] == ReplaceAll(lines[i], Marker(key), text)
      {
        EmitAt(lines, pairs, i, 0);
      }
    }
  }

  /** A line that holds no marker of any key is printed unchanged, once per entry. */
  lemma MarkerFreeLineIsCopied(line: string, pairs: seq<(string, string)>)
    requires forall j :: 0 <= j < |pairs| ==> !Contains(line, Marker(pairs[j].0))
    ensures EmitLine(line, pairs) == seq(|pairs|, _ => line)
  {
    forall j | 0 <= j < |pairs| ensures EmitLine(line, pairs)[j] == line {
      ReplaceAllAbsent(line, Marker(pairs[j].0), pairs[j].1);
    }
  }

  /** The loop over the file, one line further: that line's output comes after the earlier lines'. */
  lemma EmitSnoc(lines: seq<string>, pairs: seq<(string, string)>, i: nat)
    requires i < |lines|
    ensures Emit(lines[..i + 1], pairs) == Emit(lines[..i], pairs) + EmitLine(lines[i], pairs)
  {
    assert lines[..i + 1][..i] == lines[..i];
  }

  /** The loop over the entries, one entry further: its replacement is printed after the others. */
  lemma EmitLineSnoc(line: string, entries: Entries, j: nat)
    requires j < |entries| && AllStr(entries[..j + 1])
    ensures AllStr(entries[..j])
    ensures EmitLine(line, Pairs(entries[..j + 1]))
         == EmitLine(line, Pairs(entries[..j])) + [ReplaceAll(line, Marker(entries[j].0), entries[j].1.s)]
  {
    assert forall n :: 0 <= n < j ==> entries[..j][n] == entries[..j + 1][n];
    var a := EmitLine(line, Pairs(entries[..j + 1]));
    var b := EmitLine(line, Pairs(entries[..j])) + [ReplaceAll(line, Marker(entries[j].0), entries[j].1.s)];
    forall n | 0 <= n < |a| ensures a[n] == b[n] {
      if n < j {
        assert Pairs(entries[..j + 1])[n] == Pairs(entries[..j])[n];
      } else {
        assert Pairs(entries[..j + 1])[n] == (entries[j].0, entries[j].1.s);
      }
    }
  }
}
