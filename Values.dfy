/**
 * The values that flow through the pipeline configuration: what `yaml.safe_load` and the
 * command-line parser produce, and what the configuration dictionaries hold.
 *
 * A Python dict is an ordered association list.  `Put` is `d[k] = v` (an existing key keeps its
 * position, a new key is appended), `Overlay(m, o)` is `{**m, **o}` and `DictOf(items)` is
 * `dict(items)`; iteration order is insertion order, as in Python.
 */
module Values {
  import opened Wrappers

  datatype Value =
    | Str(s: string)
    | Num(n: int)                       // a Python int (a bool is an int in Python)
    | Null                              // None
    | List(items: seq<Value>)
    | Dict(entries: seq<(string, Value)>)

  type Entries = seq<(string, Value)>

  /** `d[k]`: the value at the first entry with key `k`. */
  function Lookup(m: Entries, k: string): (r: Option<Value>)
    ensures r.None? <==> forall i :: 0 <= i < |m| ==> m[i].0 != k
    ensures r.Some? ==> exists i :: 0 <= i < |m| && m[i] == (k, r.value)
  {
    if m == [] then None
    else if m[0].0 == k then Some(m[0].1)
    else
      var r := Lookup(m[1..], k);
      assert forall i :: 1 <= i < |m| ==> m[i] == m[1..][i - 1];
      r
  }

  /** `k in d` */
  predicate Has(m: Entries, k: string) {
    Lookup(m, k).Some?
  }

  /** The value at the last entry with key `k`: what `dict(items)` keeps for a repeated key. */
  function LastLookup(m: Entries, k: string): (r: Option<Value>)
    ensures r.Some? <==> Has(m, k)
  {
    if m == [] then None
    else
      var later := LastLookup(m[1..], k);
      if later.Some? then later
      else if m[0].0 == k then Some(m[0].1)
      else None
  }

  /** What makes an association list a dict: no key occurs twice. */
  predicate UniqueKeys(m: Entries) {
    forall i, j :: 0 <= i < j < |m| ==> m[i].0 != m[j].0
  }

  lemma {:induction false} UniqueLastLookup(m: Entries, k: string)
    requires UniqueKeys(m)
    ensures LastLookup(m, k) == Lookup(m, k)
  {
    if m != [] {
      assert UniqueKeys(m[1..]) by {
        forall i, j | 0 <= i < j < |m[1..]| ensures m[1..][i].0 != m[1..][j].0 {
          assert m[1..][i] == m[i + 1] && m[1..][j] == m[j + 1];
        }
      }
      UniqueLastLookup(m[1..], k);
      if m[0].0 == k {
        assert forall i :: 0 <= i < |m[1..]| ==> m[1..][i].0 != k by {
          forall i | 0 <= i < |m[1..]| ensures m[1..][i].0 != k {
            assert m[1..][i] == m[i + 1];
          }
        }
      }
    }
  }

  /** In a dict, every entry is found by its own key. */
  lemma {:induction false} LookupAt(m: Entries, i: nat)
    requires UniqueKeys(m) && i < |m|
    ensures Lookup(m, m[i].0) == Some(m[i].1)
  {
    if i > 0 {
      assert m[0].0 != m[i].0;
      assert UniqueKeys(m[1..]) by {
        forall a, b | 0 <= a < b < |m[1..]| ensures m[1..][a].0 != m[1..][b].0 {
          assert m[1..][a] == m[a + 1] && m[1..][b] == m[b + 1];
        }
      }
      assert m[1..][i - 1] == m[i];
      LookupAt(m[1..], i - 1);
    }
  }

  /** `d[k] = v` */
  function Put(m: Entries, k: string, v: Value): (r: Entries)
    ensures Lookup(r, k) == Some(v)
    ensures forall k' :: k' != k ==> Lookup(r, k') == Lookup(m, k')
    ensures |r| == if Has(m, k) then |m| else |m| + 1
    ensures forall i :: 0 <= i < |m| ==> r[i].0 == m[i].0
    ensures !Has(m, k) ==> r == m + [(k, v)]
  {
    if m == [] then [(k, v)]
    else if m[0].0 == k then [(k, v)] + m[1..]
    else
      var rest := Put(m[1..], k, v);
      assert ([m[0]] + rest)[1..] == rest;
      assert m == [m[0]] + m[1..];
      [m[0]] + rest
  }

  /** `d[k] = v` keeps a dict a dict. */
  lemma PutKeepsUniqueKeys(m: Entries, k: string, v: Value)
    requires UniqueKeys(m)
    ensures UniqueKeys(Put(m, k, v))
  {
    var r := Put(m, k, v);
    forall i, j | 0 <= i < j < |r| ensures r[i].0 != r[j].0 {
      if j == |m| {
        assert r[j] == (k, v);
        assert m[i].0 != k;
      }
    }
  }

  /** `d[k] = v` invents no entry: each one is an old entry or the new one. */
  lemma {:induction false} PutEntries(m: Entries, k: string, v: Value)
    ensures forall e :: e in Put(m, k, v) ==> e in m || e == (k, v)
  {
    if m != [] && m[0].0 != k {
      PutEntries(m[1..], k, v);
      assert Put(m, k, v) == [m[0]] + Put(m[1..], k, v);
    }
  }

  /** Writing back the value a key already maps to changes nothing. */
  lemma {:induction false} PutSame(m: Entries, k: string)
    requires Has(m, k)
    ensures Put(m, k, Lookup(m, k).value) == m
  {
    if m[0].0 != k {
      PutSame(m[1..], k);
    }
  }

  /** A second write to a key replaces the first. */
  lemma {:induction false} PutPut(m: Entries, k: string, a: Value, b: Value)
    ensures Put(Put(m, k, a), k, b) == Put(m, k, b)
  {
    if m != [] && m[0].0 != k {
      PutPut(m[1..], k, a, b);
    }
  }

  /** Writes to two different keys commute once one of the keys is already present. */
  lemma {:induction false} PutCommute(m: Entries, k: string, a: Value, p: (string, Value))
    requires p.0 != k && Has(m, k)
    ensures Put(Put(m, p.0, p.1), k, a) == Put(Put(m, k, a), p.0, p.1)
  {
    if m[0].0 != k && m[0].0 != p.0 {
      PutCommute(m[1..], k, a, p);
    }
  }

  /** `d[k] = v` leaves the last entry of every other key where it was. */
  lemma {:induction false} LastLookupPut(m: Entries, k: string, v: Value, k': string)
    requires k' != k
    ensures LastLookup(Put(m, k, v), k') == LastLookup(m, k')
  {
    if m == [] {
      assert LastLookup([(k, v)], k') == LastLookup([], k');
    } else if m[0].0 == k {
      assert ([(k, v)] + m[1..])[1..] == m[1..];
    } else {
      LastLookupPut(m[1..], k, v, k');
      assert ([m[0]] + Put(m[1..], k, v))[1..] == Put(m[1..], k, v);
    }
  }

  /** `{**m, **o}`: o's entries written into m one after the other. */
  function Overlay(m: Entries, o: Entries): (r: Entries)
    ensures forall k :: Lookup(r, k) == if Has(o, k) then LastLookup(o, k) else Lookup(m, k)
    ensures |r| >= |m| && forall i :: 0 <= i < |m| ==> r[i].0 == m[i].0
    ensures UniqueKeys(m) ==> UniqueKeys(r)
    decreases |o|
  {
    if o == [] then m
    else
      var r := Overlay(Put(m, o[0].0, o[0].1), o[1..]);
      assert forall k :: Has(o, k) <==> k == o[0].0 || Has(o[1..], k);
      r
  }

  /** `dict(items)`: a repeated key keeps its first position and its last value. */
  function DictOf(items: Entries): (r: Entries)
    ensures UniqueKeys(r)
    ensures forall k :: Lookup(r, k) == LastLookup(items, k)
  {
    Overlay([], items)
  }

  /** `{**m, **o}` invents no entry: each one comes from `m` or from `o`. */
  lemma {:induction false} OverlayEntries(m: Entries, o: Entries)
    ensures forall e :: e in Overlay(m, o) ==> e in m || e in o
    decreases |o|
  {
    if o != [] {
      PutEntries(m, o[0].0, o[0].1);
      OverlayEntries(Put(m, o[0].0, o[0].1), o[1..]);
      assert forall e :: e in o[1..] ==> e in o;
    }
  }

  /** The keys of a dict, in its order. */
  function Keys(m: Entries): (r: seq<string>)
    ensures |r| == |m|
  {
    if m == [] then [] else [m[0].0] + Keys(m[1..])
  }

  /** The keys of `ks` that are not in `seen`, each once, in the order they first appear. */
  function FreshKeys(seen: seq<string>, ks: seq<string>): seq<string>
    decreases |ks|
  {
    if ks == [] then []
    else if ks[0] in seen then FreshKeys(seen, ks[1..])
    else [ks[0]] + FreshKeys(seen + [ks[0]], ks[1..])
  }

  lemma {:induction false} KeysHas(m: Entries, k: string)
    ensures k in Keys(m) <==> Has(m, k)
  {
    if m != [] {
      KeysHas(m[1..], k);
      assert Keys(m) == [m[0].0] + Keys(m[1..]);
    }
  }

  lemma {:induction false} KeysByPosition(a: Entries, b: Entries)
    requires |a| == |b| && forall i :: 0 <= i < |a| ==> a[i].0 == b[i].0
    ensures Keys(a) == Keys(b)
  {
    if a != [] {
      KeysByPosition(a[1..], b[1..]);
    }
  }

  lemma {:induction false} KeysAppend(m: Entries, e: (string, Value))
    ensures Keys(m + [e]) == Keys(m) + [e.0]
  {
    if m != [] {
      KeysAppend(m[1..], e);
      assert (m + [e])[1..] == m[1..] + [e];
    }
  }

  /** `d[k] = v` leaves the keys as they are when `k` is one of them, and appends `k` otherwise. */
  lemma KeysPut(m: Entries, k: string, v: Value)
    ensures Keys(Put(m, k, v)) == if k in Keys(m) then Keys(m) else Keys(m) + [k]
  {
    KeysHas(m, k);
    if Has(m, k) {
      KeysByPosition(Put(m, k, v), m);
    } else {
      KeysAppend(m, (k, v));
    }
  }

  /** One key of `ks` moves into `seen`, when it is new, without changing what is seen in the end. */
  lemma FreshKeysStep(seen: seq<string>, seen': seq<string>, ks: seq<string>)
    requires ks != [] && seen' == if ks[0] in seen then seen else seen + [ks[0]]
    ensures seen + FreshKeys(seen, ks) == seen' + FreshKeys(seen', ks[1..])
  {
    if ks[0] !in seen {
      assert seen + ([ks[0]] + FreshKeys(seen', ks[1..])) == seen' + FreshKeys(seen', ks[1..]);
    }
  }

  /** `{**m, **o}` keeps `m`'s keys in place and appends `o`'s new keys in the order they first appear in `o`. */
  lemma {:induction false} OverlayKeyOrder(m: Entries, o: Entries)
    ensures Keys(Overlay(m, o)) == Keys(m) + FreshKeys(Keys(m), Keys(o))
    decreases |o|
  {
    if o != [] {
      var m' := Put(m, o[0].0, o[0].1);
      OverlayKeyOrder(m', o[1..]);
      KeysPut(m, o[0].0, o[0].1);
      assert Keys(o) == [o[0].0] + Keys(o[1..]);
      FreshKeysStep(Keys(m), Keys(m'), Keys(o));
    }
  }

  lemma {:induction false} OverlayConcat(m: Entries, a: Entries, b: Entries)
    ensures Overlay(m, a + b) == Overlay(Overlay(m, a), b)
    decreases |a|
  {
    if a == [] {
      assert a + b == b;
    } else {
      var m' := Put(m, a[0].0, a[0].1);
      assert (a + b)[0] == a[0] && (a + b)[1..] == a[1..] + b;
      assert Overlay(m, a + b) == Overlay(m', a[1..] + b);
      assert Overlay(m, a) == Overlay(m', a[1..]);
      OverlayConcat(m', a[1..], b);
    }
  }

  /** Writing a key that `x` does not mention can be done before or after overlaying `x`. */
  lemma {:induction false} PutOverlayCommute(m: Entries, x: Entries, k: string, v: Value)
    requires Has(m, k) && !Has(x, k)
    ensures Put(Overlay(m, x), k, v) == Overlay(Put(m, k, v), x)
    decreases |x|
  {
    if x != [] {
      assert x[0].0 != k;
      assert !Has(x[1..], k);
      var p := x[0];
      PutOverlayCommute(Put(m, p.0, p.1), x[1..], k, v);
      PutCommute(m, k, v, p);
    }
  }

  /** Overlaying a dict and then writing one key equals overlaying the dict with that key written. */
  lemma {:induction false} OverlayPut(m: Entries, n: Entries, k: string, v: Value)
    requires UniqueKeys(n)
    ensures Overlay(m, Put(n, k, v)) == Put(Overlay(m, n), k, v)
    decreases |n|
  {
    if n == [] {
    } else if n[0].0 == k {
      var rest := n[1..];
      assert Put(n, k, v) == [(k, v)] + rest;
      assert !Has(rest, k) by {
        forall i | 0 <= i < |rest| ensures rest[i].0 != k {
          assert rest[i] == n[i + 1];
        }
      }
      PutOverlayCommute(Put(m, k, n[0].1), rest, k, v);
      PutPut(m, k, n[0].1, v);
    } else {
      assert UniqueKeys(n[1..]) by {
        forall a, b | 0 <= a < b < |n[1..]| ensures n[1..][a].0 != n[1..][b].0 {
          assert n[1..][a] == n[a + 1] && n[1..][b] == n[b + 1];
        }
      }
      assert Put(n, k, v) == [n[0]] + Put(n[1..], k, v);
      assert ([n[0]] + Put(n[1..], k, v))[1..] == Put(n[1..], k, v);
      OverlayPut(Put(m, n[0].0, n[0].1), n[1..], k, v);
    }
  }

  /** `{**m, **{**n, **x}} == {**{**m, **n}, **x}` for a dict `n`. */
  lemma {:induction false} OverlayAssoc(m: Entries, n: Entries, x: Entries)
    requires UniqueKeys(n)
    ensures Overlay(m, Overlay(n, x)) == Overlay(Overlay(m, n), x)
    decreases |x|
  {
    if x != [] {
      var p := x[0];
      OverlayAssoc(m, Put(n, p.0, p.1), x[1..]);
      OverlayPut(m, n, p.0, p.1);
    }
  }

  /** Overlaying `dict(x)` is the same as overlaying the raw items `x`. */
  lemma OverlayDictOf(m: Entries, x: Entries)
    ensures Overlay(m, DictOf(x)) == Overlay(m, x)
  {
    OverlayAssoc(m, [], x);
  }

  /** Python's binary `+` on the kinds of value it accepts; anything else is a TypeError. */
  function Add(a: Value, b: Value): Result<Value>
  {
    match (a, b)
    case (Str(x), Str(y)) => Ok(Str(x + y))
    case (Num(x), Num(y)) => Ok(Num(x + y))
    case (List(x), List(y)) => Ok(List(x + y))
    case _ => Err(TypeError)
  }

  /** What `for x in v` walks: a list's items, a string's characters, a dict's keys. */
  function Iterate(v: Value): (r: Result<seq<Value>>)
    ensures v.List? ==> r == Ok(v.items)
    ensures v.Str? ==> r.Ok? && |r.value| == |v.s| && forall i :: 0 <= i < |v.s| ==> r.value[i] == Str([v.s[i]])
    ensures v.Dict? ==> r.Ok? && |r.value| == |v.entries| && forall i :: 0 <= i < |v.entries| ==> r.value[i] == Str(v.entries[i].0)
    ensures (v.Num? || v.Null?) <==> r.Err?
  {
    match v
    case List(items) => Ok(items)
    case Str(s) => Ok(seq(|s|, i requires 0 <= i < |s| => Str([s[i]])))
    case Dict(entries) => Ok(seq(|entries|, i requires 0 <= i < |entries| => Str(entries[i].0)))
    case _ => Err(TypeError)
  }
}
