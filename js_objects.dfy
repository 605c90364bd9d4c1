/** The JavaScript object semantics the logger's records depend on: an object
    literal keeps its properties in insertion order, assigning to an existing
    property changes its value but not its position, a new property goes last,
    a spread `{...a, ...b}` assigns `b`'s properties onto `a` one by one, and
    `JSON.stringify` drops the properties whose value is `undefined`. */
module JsObjects {
  import opened Wrappers

  /** A JSON value. Numbers are modelled as integers. */
  datatype Value =
    | Null
    | Bool(b: bool)
    | Num(n: int)
    | Str(s: string)
    | Arr(items: seq<Value>)
    | Obj(fields: seq<(string, Value)>)

  /** What an object property holds: `undefined`, or a JSON value. */
  datatype Slot = Undefined | Defined(value: Value)

  /** An object: its properties in insertion order. */
  type Record = seq<(string, Slot)>

  /** A serialized object: the properties `JSON.stringify` writes, in order. */
  type Line = seq<(string, Value)>

  /** The property names of `r`, in order. */
  function Keys(r: Record): (ks: seq<string>)
    ensures |ks| == |r|
  {
    if |r| == 0 then [] else [r[0].0] + Keys(r[1..])
  }

  /** The property names of a serialized object, in order. */
  function LineKeys(line: Line): seq<string>
  {
    seq(|line|, i requires 0 <= i < |line| => line[i].0)
  }

  /** No name occurs twice in `ks`. */
  predicate Distinct(ks: seq<string>)
  {
    |ks| == 0 || (ks[0] !in ks[1..] && Distinct(ks[1..]))
  }

  /** A well-formed object: no property name occurs twice. */
  predicate UniqueKeys(r: Record)
  {
    Distinct(Keys(r))
  }

  /** `r[k]` read as an optional slot: `None` when `k` is not a property. */
  function Lookup(r: Record, k: string): Option<Slot>
  {
    if |r| == 0 then None
    else if r[0].0 == k then Some(r[0].1)
    else Lookup(r[1..], k)
  }

  /** `r[k] = v`: overwrites the value in place when `k` is already a
      property, and otherwise appends `k` as the last property. */
  function Put(r: Record, k: string, v: Slot): (r': Record)
    ensures Keys(r') == if k in Keys(r) then Keys(r) else Keys(r) + [k]
    ensures k !in Keys(r) ==> r' == r + [(k, v)]
    ensures Lookup(r', k) == Some(v)
    ensures forall j :: j != k ==> Lookup(r', j) == Lookup(r, j)
    decreases |r|
  {
    if |r| == 0 then [(k, v)]
    else
      var x := r[0];
      assert r == [x] + r[1..];
      ConsFacts(x, r[1..]);
      if x.0 == k then
        ConsFacts((k, v), r[1..]);
        [(k, v)] + r[1..]
      else
        var tail := Put(r[1..], k, v);
        ConsFacts(x, tail);
        [x] + tail
  }

  /** Keys and lookups of an object given by its first property and the rest. */
  lemma ConsFacts(x: (string, Slot), r: Record)
    ensures Keys([x] + r) == [x.0] + Keys(r)
    ensures forall j :: Lookup([x] + r, j) == if x.0 == j then Some(x.1) else Lookup(r, j)
  {
    assert ([x] + r)[1..] == r;
  }

  /** The names of `ks` not already in `existing`, in order. */
  function KeysNotIn(ks: seq<string>, existing: seq<string>): seq<string>
  {
    if |ks| == 0 then []
    else (if ks[0] in existing then [] else [ks[0]]) + KeysNotIn(ks[1..], existing)
  }

  /** `{...r, ...entry}`: `entry`'s properties assigned onto `r`, in `entry`'s order. */
  function Spread(r: Record, entry: Record): Record
    decreases |entry|
  {
    if |entry| == 0 then r
    else Spread(Put(r, entry[0].0, entry[0].1), entry[1..])
  }

  /** `JSON.stringify` at the top level: the properties in order, less the
      `undefined` ones. */
  function Stringify(r: Record): Line
  {
    if |r| == 0 then []
    else if r[0].1.Defined? then [(r[0].0, r[0].1.value)] + Stringify(r[1..])
    else Stringify(r[1..])
  }

  /** Every property's name is among the names. */
  lemma {:induction false} KeysContain(r: Record, p: (string, Slot))
    requires p in r
    ensures p.0 in Keys(r)
    decreases |r|
  {
    if r[0] != p {
      assert p in r[1..];
      KeysContain(r[1..], p);
    }
  }

  lemma {:induction false} DistinctSnoc(ks: seq<string>, k: string)
    requires Distinct(ks) && k !in ks
    ensures Distinct(ks + [k])
    decreases |ks|
  {
    if |ks| > 0 {
      assert (ks + [k])[1..] == ks[1..] + [k];
      DistinctSnoc(ks[1..], k);
    }
  }

  /** Assigning a property keeps the property names distinct. */
  lemma PutUnique(r: Record, k: string, v: Slot)
    requires UniqueKeys(r)
    ensures UniqueKeys(Put(r, k, v))
  {
    if k !in Keys(r) {
      DistinctSnoc(Keys(r), k);
    }
  }

  lemma {:induction false} KeysNotInIgnores(ks: seq<string>, existing: seq<string>, k: string)
    requires k !in ks
    ensures KeysNotIn(ks, existing + [k]) == KeysNotIn(ks, existing)
    decreases |ks|
  {
    if |ks| > 0 {
      KeysNotInIgnores(ks[1..], existing, k);
    }
  }

  /** Spreading keeps the property names distinct. */
  lemma {:induction false} SpreadUnique(r: Record, entry: Record)
    requires UniqueKeys(r)
    ensures UniqueKeys(Spread(r, entry))
    decreases |entry|
  {
    if |entry| > 0 {
      PutUnique(r, entry[0].0, entry[0].1);
      SpreadUnique(Put(r, entry[0].0, entry[0].1), entry[1..]);
    }
  }

  /** Key order of a spread: the properties of `r` first, where they were,
      then the new names of `entry` in `entry`'s order. */
  lemma {:induction false} SpreadKeys(r: Record, entry: Record)
    requires UniqueKeys(entry)
    ensures Keys(Spread(r, entry)) == Keys(r) + KeysNotIn(Keys(entry), Keys(r))
    decreases |entry|
  {
    if |entry| > 0 {
      var k, rest := entry[0].0, entry[1..];
      assert Keys(entry) == [k] + Keys(rest);
      SpreadKeys(Put(r, k, entry[0].1), rest);
      PutKeysNotIn(r, k, entry[0].1, Keys(rest));
    } else {
      assert KeysNotIn(Keys(entry), Keys(r)) == [];
    }
  }

  /** One step of a spread, on names: assigning `k` and then adding the
      names `ks` gives the names of `r` followed by the new ones of `[k] + ks`. */
  lemma PutKeysNotIn(r: Record, k: string, v: Slot, ks: seq<string>)
    requires k !in ks
    ensures Keys(Put(r, k, v)) + KeysNotIn(ks, Keys(Put(r, k, v))) == Keys(r) + KeysNotIn([k] + ks, Keys(r))
  {
    assert ([k] + ks)[1..] == ks;
    if k !in Keys(r) {
      KeysNotInIgnores(ks, Keys(r), k);
    }
  }

  /** Values of a spread: an `entry` property wins, every other property
      keeps its value from `r`. */
  lemma {:induction false} SpreadLookup(r: Record, entry: Record, k: string)
    requires UniqueKeys(entry)
    ensures Lookup(Spread(r, entry), k) == if k in Keys(entry) then Lookup(entry, k) else Lookup(r, k)
    decreases |entry|
  {
    if |entry| > 0 {
      var rest := entry[1..];
      assert Keys(entry) == [entry[0].0] + Keys(rest);
      SpreadLookup(Put(r, entry[0].0, entry[0].1), rest, k);
    }
  }

  /** `JSON.stringify` writes exactly the defined properties. */
  lemma {:induction false} StringifyMember(r: Record, k: string, v: Value)
    ensures (k, v) in Stringify(r) <==> (k, Defined(v)) in r
    decreases |r|
  {
    if |r| > 0 {
      StringifyMember(r[1..], k, v);
      assert r == [r[0]] + r[1..];
    }
  }

  /** `JSON.stringify` works property by property, so it keeps their order. */
  lemma {:induction false} StringifyAppend(a: Record, b: Record)
    ensures Stringify(a + b) == Stringify(a) + Stringify(b)
    decreases |a|
  {
    if |a| > 0 {
      assert (a + b)[0] == a[0];
      assert (a + b)[1..] == a[1..] + b;
      StringifyAppend(a[1..], b);
      if a[0].1.Defined? {
        var p := (a[0].0, a[0].1.value);
        assert Stringify(a + b) == [p] + Stringify(a[1..] + b);
        assert Stringify(a) == [p] + Stringify(a[1..]);
      } else {
        assert Stringify(a + b) == Stringify(a[1..] + b);
      }
    } else {
      assert a + b == b;
    }
  }

  /** In a well-formed object a property occurs once, so it is what `Lookup` finds. */
  lemma {:induction false} LookupUnique(r: Record, k: string, s: Slot)
    requires UniqueKeys(r)
    requires (k, s) in r
    ensures Lookup(r, k) == Some(s)
    decreases |r|
  {
    if r[0] != (k, s) {
      assert (k, s) in r[1..];
      KeysContain(r[1..], (k, s));
      LookupUnique(r[1..], k, s);
    }
  }
}
