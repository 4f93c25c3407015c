/**
 * `flatten`: nested dicts become one dict with dotted keys.  The loop collects, entry by entry,
 * either the items of the flattened sub-dict or the entry itself (a value whose `.items()` raises),
 * and `dict(items)` removes repeated keys (the last value wins, the first position stays).
 * Keys are strings here, so the bare `except` only ever catches the "not a dict" case.
 */
module Flattening {
  import opened Values
  import opened Text

  /** `parent_key + sep + k if parent_key else k`: an empty parent adds no separator. */
  function NewKey(parent: string, sep: string, k: string): string {
    if parent != "" then parent + sep + k else k
  }

  /** The `items` list the loop builds from entry `i` of `d` on. */
  function FlatItems(d: Value, i: nat, parent: string, sep: string): (r: Entries)
    requires d.Dict? && i <= |d.entries|
    ensures forall n :: 0 <= n < |r| ==> !r[n].1.Dict?
    decreases d, |d.entries| - i
  {
    if i == |d.entries| then []
    else
      var k := d.entries[i].0;
      var v := d.entries[i].1;
      var key := NewKey(parent, sep, k);
      (if v.Dict? then Flatten(v, key, sep) else [(key, v)]) + FlatItems(d, i + 1, parent, sep)
  }

  /** `flatten(d, parent_key, sep)` */
  function Flatten(d: Value, parent: string, sep: string): (r: Entries)
    requires d.Dict?
    ensures UniqueKeys(r)
    ensures forall n :: 0 <= n < |r| ==> !r[n].1.Dict?
    decreases d, |d.entries| + 1
  {
    var items := FlatItems(d, 0, parent, sep);
    var r := DictOf(items);
    OverlayEntries([], items);
    assert forall n :: 0 <= n < |r| ==> r[n] in items;
    r
  }

  /** Reference: every non-dict value of the tree with the path of keys leading to it, in traversal order. */
  function LeafPaths(d: Value, i: nat): (r: seq<(seq<string>, Value)>)
    requires d.Dict? && i <= |d.entries|
    ensures forall n :: 0 <= n < |r| ==> |r[n].0| > 0 && !r[n].1.Dict?
    decreases d, |d.entries| - i
  {
    if i == |d.entries| then []
    else
      var k := d.entries[i].0;
      var v := d.entries[i].1;
      (if v.Dict? then Under(k, LeafPaths(v, 0)) else [([k], v)]) + LeafPaths(d, i + 1)
  }

  function Under(k: string, ps: seq<(seq<string>, Value)>): (r: seq<(seq<string>, Value)>)
    ensures |r| == |ps| && forall n :: 0 <= n < |ps| ==> r[n] == ([k] + ps[n].0, ps[n].1)
  {
    seq(|ps|, n requires 0 <= n < |ps| => ([k] + ps[n].0, ps[n].1))
  }

  /** The key `flatten` builds for a path below `parent`. */
  function KeyOf(parent: string, sep: string, path: seq<string>): string
    decreases |path|
  {
    if path == [] then parent else KeyOf(NewKey(parent, sep, path[0]), sep, path[1..])
  }

  lemma KeyOfOne(parent: string, sep: string, k: string)
    ensures KeyOf(parent, sep, [k]) == NewKey(parent, sep, k)
  {
    assert [k][1..] == [];
    assert KeyOf(parent, sep, [k]) == KeyOf(NewKey(parent, sep, k), sep, []);
  }

  function Keyed(ps: seq<(seq<string>, Value)>, parent: string, sep: string): (r: Entries)
    ensures |r| == |ps| && forall n :: 0 <= n < |ps| ==> r[n] == (KeyOf(parent, sep, ps[n].0), ps[n].1)
  {
    seq(|ps|, n requires 0 <= n < |ps| => (KeyOf(parent, sep, ps[n].0), ps[n].1))
  }

  /** The leaves of `d`, from entry `i` on, keyed as `flatten` keys them. */
  function Leaves(d: Value, i: nat, parent: string, sep: string): Entries
    requires d.Dict? && i <= |d.entries|
  {
    Keyed(LeafPaths(d, i), parent, sep)
  }

  lemma KeyedConcat(a: seq<(seq<string>, Value)>, b: seq<(seq<string>, Value)>, parent: string, sep: string)
    ensures Keyed(a + b, parent, sep) == Keyed(a, parent, sep) + Keyed(b, parent, sep)
  {
  }

  lemma KeyedUnder(k: string, ps: seq<(seq<string>, Value)>, parent: string, sep: string)
    ensures Keyed(Under(k, ps), parent, sep) == Keyed(ps, NewKey(parent, sep, k), sep)
  {
    forall n | 0 <= n < |ps|
      ensures Keyed(Under(k, ps), parent, sep)[n] == Keyed(ps, NewKey(parent, sep, k), sep)[n]
    {
      assert ([k] + ps[n].0)[1..] == ps[n].0;
    }
  }

  /** Overlaying the loop's items equals overlaying the raw leaves: the inner `dict()` calls change nothing. */
  lemma {:induction false} FlatItemsLikeLeaves(m: Entries, d: Value, i: nat, parent: string, sep: string)
    requires d.Dict? && i <= |d.entries|
    ensures Overlay(m, FlatItems(d, i, parent, sep)) == Overlay(m, Leaves(d, i, parent, sep))
    decreases d, |d.entries| - i
  {
    if i < |d.entries| {
      var k := d.entries[i].0;
      var v := d.entries[i].1;
      var key := NewKey(parent, sep, k);
      var chunkF := if v.Dict? then Flatten(v, key, sep) else [(key, v)];
      var chunkP := if v.Dict? then Under(k, LeafPaths(v, 0)) else [([k], v)];
      var chunkL := Keyed(chunkP, parent, sep);
      var restF := FlatItems(d, i + 1, parent, sep);
      var restL := Leaves(d, i + 1, parent, sep);
      assert FlatItems(d, i, parent, sep) == chunkF + restF;
      assert LeafPaths(d, i) == chunkP + LeafPaths(d, i + 1);
      KeyedConcat(chunkP, LeafPaths(d, i + 1), parent, sep);
      assert Leaves(d, i, parent, sep) == chunkL + restL;
      assert Overlay(m, chunkF) == Overlay(m, chunkL) by {
        if v.Dict? {
          OverlayDictOf(m, FlatItems(v, 0, key, sep));
          FlatItemsLikeLeaves(m, v, 0, key, sep);
          KeyedUnder(k, LeafPaths(v, 0), parent, sep);
        } else {
          KeyOfOne(parent, sep, k);
          assert chunkL == [(key, v)];
        }
      }
      OverlayConcat(m, chunkF, restF);
      OverlayConcat(m, chunkL, restL);
      FlatItemsLikeLeaves(Overlay(m, chunkF), d, i + 1, parent, sep);
    }
  }

  /**
   * `flatten` is `dict()` of the leaf list: each non-dict value under the path k1, ..., kn, in
   * traversal order, keyed by `KeyOf`; a key repeated later wins.
   */
  lemma FlattenIsDictOfLeaves(d: Value, parent: string, sep: string)
    requires d.Dict?
    ensures Flatten(d, parent, sep) == DictOf(Leaves(d, 0, parent, sep))
  {
    FlatItemsLikeLeaves([], d, 0, parent, sep);
  }

  /** Below a non-empty parent the key is the parent, the separator and the dotted path. */
  lemma {:induction false} KeyOfBelow(parent: string, sep: string, path: seq<string>)
    requires parent != "" && path != []
    ensures KeyOf(parent, sep, path) == parent + sep + Join(sep, path)
    decreases |path|
  {
    var next := NewKey(parent, sep, path[0]);
    if |path| > 1 {
      KeyOfBelow(next, sep, path[1..]);
    }
  }

  /**
   * At the top level the key of a leaf is its path joined with the separator, with no leading
   * separator.  An empty first key counts as no parent, so it adds no separator and vanishes:
   * `["", "b"]` gives `"b"`.
   */
  lemma TopLevelKey(sep: string, path: seq<string>)
    requires path != []
    ensures path[0] != "" ==> KeyOf("", sep, path) == Join(sep, path)
    ensures path[0] == "" ==> KeyOf("", sep, path) == KeyOf("", sep, path[1..])
  {
    if |path| > 1 && path[0] != "" {
      KeyOfBelow(path[0], sep, path[1..]);
    }
  }

  /** An entry whose value is an empty dict contributes nothing to the flattened dict, at any parent key. */
  lemma EmptyNestedDictVanishes(a: Entries, k: string, b: Entries, parent: string, sep: string)
    ensures Flatten(Dict(a + [(k, Dict([]))] + b), parent, sep) == Flatten(Dict(a + b), parent, sep)
  {
    FlatItemsBeforeEmpty(a, k, b, parent, sep, 0);
  }

  lemma {:induction false} FlatItemsBeforeEmpty(a: Entries, k: string, b: Entries, parent: string, sep: string, i: nat)
    requires i <= |a|
    ensures FlatItems(Dict(a + [(k, Dict([]))] + b), i, parent, sep) == FlatItems(Dict(a + b), i, parent, sep)
    decreases |a| - i
  {
    if i == |a| {
      FlattenEmpty(NewKey(parent, sep, k), sep);
      FlatItemsAfterEmpty(a, k, b, parent, sep, 0);
    } else {
      assert (a + [(k, Dict([]))] + b)[i] == (a + b)[i];
      FlatItemsBeforeEmpty(a, k, b, parent, sep, i + 1);
    }
  }

  lemma FlattenEmpty(parent: string, sep: string)
    ensures Flatten(Dict([]), parent, sep) == []
  {
  }

  lemma {:induction false} FlatItemsAfterEmpty(a: Entries, k: string, b: Entries, parent: string, sep: string, j: nat)
    requires j <= |b|
    ensures FlatItems(Dict(a + [(k, Dict([]))] + b), |a| + 1 + j, parent, sep) == FlatItems(Dict(a + b), |a| + j, parent, sep)
    decreases |b| - j
  {
    if j < |b| {
      assert (a + [(k, Dict([]))] + b)[|a| + 1 + j] == (a + b)[|a| + j];
      FlatItemsAfterEmpty(a, k, b, parent, sep, j + 1);
    }
  }

  /** A dict with no nested dict is already flat: `flatten` returns it unchanged. */
  lemma FlatDictUnchanged(entries: Entries, sep: string)
    requires UniqueKeys(entries)
    requires forall n :: 0 <= n < |entries| ==> !entries[n].1.Dict?
    ensures Flatten(Dict(entries), "", sep) == entries
  {
    var d := Dict(entries);
    FlatLeaves(d, 0, sep);
    FlattenIsDictOfLeaves(d, "", sep);
    DictOfDict(entries);
  }

  lemma {:induction false} FlatLeaves(d: Value, i: nat, sep: string)
    requires d.Dict? && i <= |d.entries|
    requires forall n :: 0 <= n < |d.entries| ==> !d.entries[n].1.Dict?
    ensures Leaves(d, i, "", sep) == d.entries[i..]
    decreases |d.entries| - i
  {
    if i < |d.entries| {
      var k := d.entries[i].0;
      var v := d.entries[i].1;
      FlatLeaves(d, i + 1, sep);
      assert LeafPaths(d, i) == [([k], v)] + LeafPaths(d, i + 1);
      KeyedConcat([([k], v)], LeafPaths(d, i + 1), "", sep);
      KeyOfOne("", sep, k);
      assert Keyed([([k], v)], "", sep) == [(k, v)];
      assert d.entries[i..] == [d.entries[i]] + d.entries[i + 1..];
    }
  }

  /** `dict(d.items()) == d` for a dict. */
  lemma {:induction false} DictOfDict(entries: Entries)
    requires UniqueKeys(entries)
    ensures DictOf(entries) == entries
  {
    OverlayOfNew([], entries);
  }

  lemma AppendThenRest(m: Entries, o: Entries)
    requires o != []
    ensures (m + [o[0]]) + o[1..] == m + o
  {
    assert [o[0]] + o[1..] == o;
  }

  lemma {:induction false} OverlayOfNew(m: Entries, o: Entries)
    requires UniqueKeys(o)
    requires forall n :: 0 <= n < |o| ==> !Has(m, o[n].0)
    ensures Overlay(m, o) == m + o
    decreases |o|
  {
    if o != [] {
      var m' := Put(m, o[0].0, o[0].1);
      var rest := o[1..];
      assert m' == m + [o[0]] by {
        assert !Has(m, o[0].0);
      }
      assert forall n :: 0 <= n < |rest| ==> !Has(m', rest[n].0) by {
        forall n | 0 <= n < |rest| ensures !Has(m', rest[n].0) {
          assert rest[n] == o[n + 1];
          assert rest[n].0 != o[0].0 && !Has(m, rest[n].0);
          assert Lookup(m', rest[n].0) == Lookup(m, rest[n].0);
        }
      }
      assert UniqueKeys(rest) by {
        forall a, b | 0 <= a < b < |rest| ensures rest[a].0 != rest[b].0 {
          assert rest[a] == o[a + 1] && rest[b] == o[b + 1];
        }
      }
      OverlayOfNew(m', rest);
      assert Overlay(m, o) == Overlay(m', rest);
      AppendThenRest(m, o);
    }
  }
}
