/** The Python string operations the configuration code relies on: `str.replace`, `str.split`, `str.join`. */
module Text {

  predicate IsPrefix(p: string, s: string) {
    |p| <= |s| && s[..|p|] == p
  }

  /** `pat in s` */
  predicate Contains(s: string, pat: string)
    decreases |s|
  {
    IsPrefix(pat, s) || (s != [] && Contains(s[1..], pat))
  }

  /**
   * `s.replace(target, replacement)`: scans left to right, replaces each non-overlapping
   * occurrence of `target` and never rescans the text it has inserted.  An empty target, as in
   * Python, puts the replacement before every character and at the end.
   */
  function ReplaceAll(s: string, target: string, replacement: string): string
    decreases |s|
  {
    if target == [] then
      (if s == [] then replacement else replacement + [s[0]] + ReplaceAll(s[1..], target, replacement))
    else if IsPrefix(target, s) then replacement + ReplaceAll(s[|target|..], target, replacement)
    else if s == [] then []
    else [s[0]] + ReplaceAll(s[1..], target, replacement)
  }

  /** `sep.join(parts)` */
  function Join(sep: string, parts: seq<string>): string
  {
    if parts == [] then []
    else if |parts| == 1 then parts[0]
    else parts[0] + sep + Join(sep, parts[1..])
  }

  /** `s.split(sep)` for a non-empty separator: the pieces between the occurrences found left to right. */
  function Split(s: string, sep: string): (r: seq<string>)
    requires sep != []
    ensures |r| >= 1
    decreases |s|
  {
    if IsPrefix(sep, s) then [""] + Split(s[|sep|..], sep)
    else if s == [] then [""]
    else
      var rest := Split(s[1..], sep);
      [[s[0]] + rest[0]] + rest[1..]
  }

  lemma JoinConsHead(sep: string, a: string, x: string, rest: seq<string>)
    ensures Join(sep, [a + x] + rest) == a + Join(sep, [x] + rest)
  {
    if rest != [] {
      assert ([a + x] + rest)[1..] == rest;
      assert ([x] + rest)[1..] == rest;
    }
  }

  /** `str.join` adds one separator per new item at the end. */
  lemma {:induction false} JoinAppend(sep: string, parts: seq<string>, x: string)
    requires parts != []
    ensures Join(sep, parts + [x]) == Join(sep, parts) + sep + x
  {
    if |parts| == 1 {
      assert parts + [x] == [parts[0], x];
    } else {
      assert (parts + [x])[1..] == parts[1..] + [x];
      JoinAppend(sep, parts[1..], x);
    }
  }

  /** `s.replace(t, r) == r.join(s.split(t))`: substitution is splitting at the occurrences and re-joining. */
  lemma {:induction false} ReplaceAllIsJoinOfSplit(s: string, target: string, replacement: string)
    requires target != []
    ensures ReplaceAll(s, target, replacement) == Join(replacement, Split(s, target))
    decreases |s|
  {
    if IsPrefix(target, s) {
      ReplaceAllIsJoinOfSplit(s[|target|..], target, replacement);
      ReplaceAtOccurrence(s, target, replacement);
    } else if s != [] {
      ReplaceAllIsJoinOfSplit(s[1..], target, replacement);
      ReplacePastCharacter(s, target, replacement);
    }
  }

  /** An occurrence at the front becomes the replacement, and the split gains an empty first piece. */
  lemma ReplaceAtOccurrence(s: string, target: string, replacement: string)
    requires target != [] && IsPrefix(target, s)
    requires ReplaceAll(s[|target|..], target, replacement) == Join(replacement, Split(s[|target|..], target))
    ensures ReplaceAll(s, target, replacement) == Join(replacement, Split(s, target))
  {
    var rest := Split(s[|target|..], target);
    assert Split(s, target) == [""] + rest;
    JoinEmptyHead(replacement, rest);
  }

  /** A character that starts no occurrence is kept, at the front of the first piece. */
  lemma ReplacePastCharacter(s: string, target: string, replacement: string)
    requires target != [] && !IsPrefix(target, s) && s != []
    requires ReplaceAll(s[1..], target, replacement) == Join(replacement, Split(s[1..], target))
    ensures ReplaceAll(s, target, replacement) == Join(replacement, Split(s, target))
  {
    var rest := Split(s[1..], target);
    assert Split(s, target) == [[s[0]] + rest[0]] + rest[1..];
    JoinConsHead(replacement, [s[0]], rest[0], rest[1..]);
    assert [rest[0]] + rest[1..] == rest;
  }

  /** Splitting at a separator and joining with it gives the text back. */
  lemma {:induction false} JoinSplit(s: string, sep: string)
    requires sep != []
    ensures Join(sep, Split(s, sep)) == s
    decreases |s|
  {
    if IsPrefix(sep, s) {
      JoinSplit(s[|sep|..], sep);
      JoinSplitAtOccurrence(s, sep);
    } else if s != [] {
      JoinSplit(s[1..], sep);
      JoinSplitPastCharacter(s, sep);
    }
  }

  lemma JoinSplitAtOccurrence(s: string, sep: string)
    requires sep != [] && IsPrefix(sep, s)
    requires Join(sep, Split(s[|sep|..], sep)) == s[|sep|..]
    ensures Join(sep, Split(s, sep)) == s
  {
    var tail := s[|sep|..];
    var rest := Split(tail, sep);
    assert Split(s, sep) == [""] + rest;
    JoinEmptyHead(sep, rest);
    assert s == s[..|sep|] + tail;
  }

  /** An empty first piece contributes only its separator. */
  lemma JoinEmptyHead(sep: string, rest: seq<string>)
    requires rest != []
    ensures Join(sep, [""] + rest) == sep + Join(sep, rest)
  {
    var parts := [""] + rest;
    assert parts[1..] == rest;
    assert Join(sep, parts) == parts[0] + sep + Join(sep, parts[1..]);
    assert parts[0] + sep == sep;
  }

  lemma JoinSplitPastCharacter(s: string, sep: string)
    requires sep != [] && !IsPrefix(sep, s) && s != []
    requires Join(sep, Split(s[1..], sep)) == s[1..]
    ensures Join(sep, Split(s, sep)) == s
  {
    var rest := Split(s[1..], sep);
    assert Split(s, sep) == [[s[0]] + rest[0]] + rest[1..];
    JoinConsHead(sep, [s[0]], rest[0], rest[1..]);
    assert [rest[0]] + rest[1..] == rest;
    assert s == [s[0]] + s[1..];
  }

  /** Replacing a string by itself is the identity, however its occurrences overlap. */
  lemma ReplaceAllByItself(s: string, target: string)
    requires target != []
    ensures ReplaceAll(s, target, target) == s
  {
    ReplaceAllIsJoinOfSplit(s, target, target);
    JoinSplit(s, target);
  }

  /** Text without an occurrence of the target is left as it is. */
  lemma {:induction false} ReplaceAllAbsent(s: string, target: string, replacement: string)
    requires target != [] && !Contains(s, target)
    ensures ReplaceAll(s, target, replacement) == s
    decreases |s|
  {
    if s != [] {
      ReplaceAllAbsent(s[1..], target, replacement);
    }
  }

  /** The first piece of a split is a prefix of the text. */
  lemma {:induction false} SplitHeadIsPrefix(s: string, sep: string)
    requires sep != []
    ensures IsPrefix(Split(s, sep)[0], s)
    decreases |s|
  {
    if !IsPrefix(sep, s) && s != [] {
      SplitHeadIsPrefix(s[1..], sep);
      var r0 := Split(s[1..], sep)[0];
      assert s[..|r0| + 1] == [s[0]] + s[1..][..|r0|];
    }
  }

  /** No piece of a split contains the separator. */
  lemma {:induction false} SplitPiecesAvoidSeparator(s: string, sep: string)
    requires sep != []
    ensures forall i :: 0 <= i < |Split(s, sep)| ==> !Contains(Split(s, sep)[i], sep)
    decreases |s|
  {
    var r := Split(s, sep);
    if IsPrefix(sep, s) {
      SplitPiecesAvoidSeparator(s[|sep|..], sep);
      var rest := Split(s[|sep|..], sep);
      assert r == [""] + rest;
      assert !Contains("", sep);
      forall i | 0 <= i < |r| ensures !Contains(r[i], sep) {
        if i > 0 { assert r[i] == rest[i - 1]; }
      }
    } else if s == [] {
      assert !Contains("", sep);
    } else {
      SplitPiecesAvoidSeparator(s[1..], sep);
      SplitHeadIsPrefix(s[1..], sep);
      var rest := Split(s[1..], sep);
      var head := [s[0]] + rest[0];
      assert r == [head] + rest[1..];
      assert s[..|head|] == head by {
        assert s[..|head|] == [s[0]] + s[1..][..|rest[0]|];
      }
      assert !IsPrefix(sep, head);
      assert head[1..] == rest[0];
      assert !Contains(head, sep);
      forall i | 0 <= i < |r| ensures !Contains(r[i], sep) {
        if i > 0 { assert r[i] == rest[i]; }
      }
    }
  }
}
