/** Python data as the modelled code sees it: YAML/JSON-like values, with dictionaries as
    insertion-ordered lists of (key, value) pairs. */
module PyValue {
  import opened Wrappers
  import PyStr

  /** A dictionary key: the YAML loader and the modelled code use strings and integers. */
  datatype Key = SKey(s: string) | IKey(i: int)

  datatype Value =
    | Str(s: string)
    | Int(i: int)
    | Bool(b: bool)
    | Null
    | Arr(items: seq<Value>)
    | Obj(fields: seq<(Key, Value)>)

  type Fields = seq<(Key, Value)>

  function KeysOf(f: Fields): (ks: seq<Key>)
    ensures |ks| == |f|
    ensures forall i :: 0 <= i < |f| ==> ks[i] == f[i].0
  {
    if f == [] then [] else [f[0].0] + KeysOf(f[1..])
  }

  /** A Python dict never holds a key twice. */
  predicate DistinctKeys(f: Fields) {
    forall i, j :: 0 <= i < j < |f| ==> f[i].0 != f[j].0
  }

  lemma DistinctCons(p: (Key, Value), f: Fields)
    ensures KeysOf([p] + f) == [p.0] + KeysOf(f)
    ensures DistinctKeys([p] + f) <==> p.0 !in KeysOf(f) && DistinctKeys(f)
  {
    var r := [p] + f;
    assert r[1..] == f;
    if p.0 in KeysOf(f) {
      var j :| 0 <= j < |f| && KeysOf(f)[j] == p.0;
      assert r[0].0 == r[j + 1].0;
    }
    if DistinctKeys([p] + f) {
      forall i, j | 0 <= i < j < |f| ensures f[i].0 != f[j].0 {
        assert r[i + 1].0 != r[j + 1].0;
      }
    }
  }

  /** A value that is a dict. */
  predicate IsDict(v: Value) {
    v.Obj? && DistinctKeys(v.fields)
  }

  /** Python truthiness. */
  predicate Truthy(v: Value) {
    match v
    case Str(s) => s != []
    case Int(i) => i != 0
    case Bool(b) => b
    case Null => false
    case Arr(items) => items != []
    case Obj(fields) => fields != []
  }

  /** `d.get(k)`: the value stored under `k`, if any. */
  function Get(f: Fields, k: Key): (r: Option<Value>)
    ensures r.Some? <==> k in KeysOf(f)
    ensures r.Some? ==> (k, r.value) in f
  {
    if f == [] then None
    else if f[0].0 == k then Some(f[0].1)
    else Get(f[1..], k)
  }

  /** In a dict, every stored pair is what `get` returns. */
  lemma {:induction false} GetStored(f: Fields, k: Key, v: Value)
    requires DistinctKeys(f) && (k, v) in f
    ensures Get(f, k) == Some(v)
  {
    if f[0] != (k, v) {
      assert f[0].0 != k by {
        var i :| 0 <= i < |f| && f[i] == (k, v);
        assert i != 0;
      }
      GetStored(f[1..], k, v);
    }
  }

  /** `d[k] = v`: an existing key keeps its position, a new key goes last. */
  function Put(f: Fields, k: Key, v: Value): (r: Fields)
    ensures Get(r, k) == Some(v)
    ensures forall k' {:trigger Get(r, k')} :: k' != k ==> Get(r, k') == Get(f, k')
  {
    if f == [] then [(k, v)]
    else if f[0].0 == k then [(k, v)] + f[1..]
    else
      var rest := Put(f[1..], k, v);
      var r := [f[0]] + rest;
      assert r[1..] == rest;
      r
  }

  /** Assignment keeps the order of the keys and appends a new key at the end. */
  lemma {:induction false} PutKeys(f: Fields, k: Key, v: Value)
    ensures KeysOf(Put(f, k, v)) == if k in KeysOf(f) then KeysOf(f) else KeysOf(f) + [k]
  {
    if f != [] {
      assert f == [f[0]] + f[1..];
      DistinctCons(f[0], f[1..]);
      if f[0].0 != k {
        var rest := Put(f[1..], k, v);
        assert Put(f, k, v) == [f[0]] + rest;
        PutKeys(f[1..], k, v);
        DistinctCons(f[0], rest);
        ConsSnoc(f[0].0, KeysOf(f[1..]), k);
      } else {
        assert Put(f, k, v) == [(k, v)] + f[1..];
        DistinctCons((k, v), f[1..]);
      }
    }
  }

  lemma ConsSnoc<T>(a: T, s: seq<T>, x: T)
    ensures [a] + (s + [x]) == ([a] + s) + [x]
  {
  }

  /** Assignment never duplicates a key. */
  lemma PutDistinct(f: Fields, k: Key, v: Value)
    requires DistinctKeys(f)
    ensures DistinctKeys(Put(f, k, v))
  {
    var r := Put(f, k, v);
    PutKeys(f, k, v);
    forall i, j | 0 <= i < j < |r| ensures r[i].0 != r[j].0 {
      assert KeysOf(r)[i] == r[i].0 && KeysOf(r)[j] == r[j].0;
      if j < |f| {
        assert KeysOf(f)[i] == f[i].0 && KeysOf(f)[j] == f[j].0;
      } else {
        assert k !in KeysOf(f);
      }
    }
  }

  /** `del d[k]` / `d.pop(k, None)`: drop the pair stored under `k`, keep the others in order. */
  function Remove(f: Fields, k: Key): (r: Fields)
    ensures Get(r, k) == None
    ensures forall k' {:trigger Get(r, k')} :: k' != k ==> Get(r, k') == Get(f, k')
    ensures forall i :: 0 <= i < |r| ==> r[i] in f && r[i].0 != k
  {
    if f == [] then []
    else if f[0].0 == k then Remove(f[1..], k)
    else
      var rest := Remove(f[1..], k);
      var r := [f[0]] + rest;
      assert r[1..] == rest;
      r
  }

  /** Deletion keeps the remaining pairs in their order and never duplicates a key. */
  lemma {:induction false} RemoveDistinct(f: Fields, k: Key)
    requires DistinctKeys(f)
    ensures DistinctKeys(Remove(f, k))
  {
    if f != [] {
      DistinctCons(f[0], f[1..]);
      assert f == [f[0]] + f[1..];
      RemoveDistinct(f[1..], k);
      if f[0].0 != k {
        var rest := Remove(f[1..], k);
        assert f[0].0 !in KeysOf(rest) by {
          forall i | 0 <= i < |rest| ensures KeysOf(rest)[i] != f[0].0 {
            var m :| 0 <= m < |f[1..]| && f[1..][m] == rest[i];
            assert KeysOf(f[1..])[m] == rest[i].0;
          }
        }
        DistinctCons(f[0], rest);
        assert Remove(f, k) == [f[0]] + rest;
      }
    }
  }

  /** Deleting a key that is not stored changes nothing. */
  lemma {:induction false} RemoveAbsent(f: Fields, k: Key)
    requires k !in KeysOf(f)
    ensures Remove(f, k) == f
  {
    if f != [] {
      assert KeysOf(f) == [f[0].0] + KeysOf(f[1..]);
      RemoveAbsent(f[1..], k);
      assert [f[0]] + f[1..] == f;
    }
  }

  /** Deletion distributes over concatenation. */
  lemma {:induction false} RemoveConcat(a: Fields, b: Fields, k: Key)
    ensures Remove(a + b, k) == Remove(a, k) + Remove(b, k)
  {
    if a != [] {
      assert (a + b)[0] == a[0] && (a + b)[1..] == a[1..] + b;
      RemoveConcat(a[1..], b, k);
    } else {
      assert a + b == b;
    }
  }

  /** `d.update(g)` for a dict `g`: the pairs of `g` win, every other key keeps its value. */
  function Update(f: Fields, g: Fields): (r: Fields)
    ensures DistinctKeys(g) ==> forall k :: k in KeysOf(g) ==> Get(r, k) == Get(g, k)
    ensures forall k :: k !in KeysOf(g) ==> Get(r, k) == Get(f, k)
    decreases |g|
  {
    if g == [] then f
    else
      assert DistinctKeys(g) ==> DistinctKeys(g[1..]) && g[0].0 !in KeysOf(g[1..]);
      assert KeysOf(g) == [g[0].0] + KeysOf(g[1..]);
      Update(Put(f, g[0].0, g[0].1), g[1..])
  }

  lemma {:induction false} UpdateDistinct(f: Fields, g: Fields)
    requires DistinctKeys(f)
    ensures DistinctKeys(Update(f, g))
    decreases |g|
  {
    if g != [] {
      PutDistinct(f, g[0].0, g[0].1);
      UpdateDistinct(Put(f, g[0].0, g[0].1), g[1..]);
    }
  }

  /** The value a dict key stands for when Python iterates over the dict. */
  function KeyAsValue(k: Key): Value {
    match k
    case SKey(s) => Str(s)
    case IKey(i) => Int(i)
  }

  /** `iter(v)`: the one-character strings of a string, the elements of a list, the keys of a
      dict; None for a value that cannot be iterated. */
  function Iterated(v: Value): (r: Option<seq<Value>>)
    ensures r.Some? <==> v.Str? || v.Arr? || v.Obj?
    ensures v.Str? ==> r.Some? && |r.value| == |v.s| && forall i :: 0 <= i < |v.s| ==> r.value[i] == Str([v.s[i]])
    ensures v.Arr? ==> r == Some(v.items)
  {
    match v
    case Str(s) => Some(seq(|s|, i requires 0 <= i < |s| => Str([s[i]])))
    case Arr(items) => Some(items)
    case Obj(f) => Some(seq(|f|, i requires 0 <= i < |f| => KeyAsValue(f[i].0)))
    case _ => None
  }

  /** `v += s` for a string `s`: string concatenation, or `list.extend` with the characters of `s`
      for a list; any other value raises TypeError. */
  function InPlaceAdd(v: Value, s: string): (r: Result<Value>)
    ensures v.Str? ==> r == Ok(Str(v.s + s))
    ensures v.Arr? ==>
      && r.Ok? && r.value.Arr? && |r.value.items| == |v.items| + |s|
      && r.value.items[..|v.items|] == v.items
      && forall i :: 0 <= i < |s| ==> r.value.items[|v.items| + i] == Str([s[i]])
    ensures !v.Str? && !v.Arr? ==> r == Err(TypeError)
  {
    match v
    case Str(t) => Ok(Str(t + s))
    case Arr(items) => Ok(Arr(items + Iterated(Str(s)).value))
    case _ => Err(TypeError)
  }

  /** The dict key a value hashes to: strings and integers as themselves, a boolean as the
      integer it equals; lists and dicts are unhashable. */
  function HashKey(v: Value): (r: Result<Key>)
    ensures r.Ok? <==> v.Str? || v.Int? || v.Bool?
  {
    match v
    case Str(s) => Ok(SKey(s))
    case Int(i) => Ok(IKey(i))
    case Bool(b) => Ok(IKey(if b then 1 else 0))
    case _ => Err(TypeError)
  }

  /** One item of `d.update(items)`: it must iterate to exactly two values, a hashable key and
      its value. A non-iterable item raises TypeError, one of another length ValueError. */
  function PairOf(item: Value): (r: Result<(Key, Value)>)
    ensures Iterated(item).None? ==> r == Err(TypeError)
    ensures Iterated(item).Some? && |Iterated(item).value| != 2 ==> r == Err(ValueError)
    ensures r.Ok? ==>
      && Iterated(item).Some? && |Iterated(item).value| == 2
      && HashKey(Iterated(item).value[0]) == Ok(r.value.0) && r.value.1 == Iterated(item).value[1]
  {
    match Iterated(item)
    case None => Err(TypeError)
    case Some(xs) =>
      if |xs| != 2 then Err(ValueError)
      else
        var k :- HashKey(xs[0]);
        Ok((k, xs[1]))
  }

  /** `d.update(items)` for an argument without `keys()`: the pairs are stored one after another
      and the first item that is not a pair raises; the last pair is stored. */
  function UpdatePairs(f: Fields, items: seq<Value>): (r: Result<Fields>)
    ensures r.Ok? && items != [] ==>
      PairOf(items[|items| - 1]).Ok? &&
      Get(r.value, PairOf(items[|items| - 1]).value.0) == Some(PairOf(items[|items| - 1]).value.1)
    decreases |items|
  {
    if items == [] then Ok(f)
    else
      var g :- UpdatePairs(f, items[..|items| - 1]);
      var p :- PairOf(items[|items| - 1]);
      Ok(Put(g, p.0, p.1))
  }

  /** The update succeeds exactly when every item is a pair, and a key that no pair names keeps
      its value. */
  lemma {:induction false} UpdatePairsFrame(f: Fields, items: seq<Value>, k: Key)
    ensures UpdatePairs(f, items).Ok? <==> forall x :: x in items ==> PairOf(x).Ok?
    ensures UpdatePairs(f, items).Ok? && (forall x :: x in items ==> PairOf(x).Ok? && PairOf(x).value.0 != k) ==>
      Get(UpdatePairs(f, items).value, k) == Get(f, k)
    decreases |items|
  {
    if items != [] {
      var n := |items| - 1;
      assert forall x :: x in items <==> x in items[..n] || x == items[n];
      UpdatePairsFrame(f, items[..n], k);
    }
  }

  /** `d.update(v)`: a dict argument is merged; any other argument is iterated as a sequence of
      key/value pairs, so an empty string or list changes nothing, a non-empty string raises
      ValueError and a value that cannot be iterated raises TypeError. */
  function DictUpdate(f: Fields, v: Value): (r: Result<Fields>)
    ensures v.Obj? ==> r == Ok(Update(f, v.fields))
    ensures v.Null? || v.Int? || v.Bool? ==> r == Err(TypeError)
    ensures v == Str([]) || v == Arr([]) ==> r == Ok(f)
    ensures v.Str? && v.s != [] ==> r == Err(ValueError)
    ensures v.Arr? ==> (r.Ok? <==> forall x :: x in v.items ==> PairOf(x).Ok?)
    ensures r.Ok? && v.Arr? ==> forall k {:trigger Get(r.value, k)} ::
      (forall x :: x in v.items ==> PairOf(x).Ok? && PairOf(x).value.0 != k) ==> Get(r.value, k) == Get(f, k)
  {
    if v.Obj? then Ok(Update(f, v.fields))
    else match Iterated(v)
      case None => Err(TypeError)
      case Some(items) =>
        UpdateArrOrStr(f, v, items);
        UpdatePairs(f, items)
  }

  lemma UpdateArrOrStr(f: Fields, v: Value, items: seq<Value>)
    requires (v.Arr? || v.Str?) && Iterated(v) == Some(items)
    ensures v.Arr? ==> (UpdatePairs(f, items).Ok? <==> forall x :: x in v.items ==> PairOf(x).Ok?)
    ensures v.Arr? && UpdatePairs(f, items).Ok? ==> forall k {:trigger Get(UpdatePairs(f, items).value, k)} ::
      (forall x :: x in v.items ==> PairOf(x).Ok? && PairOf(x).value.0 != k) ==> Get(UpdatePairs(f, items).value, k) == Get(f, k)
    ensures v.Str? && v.s != [] ==> UpdatePairs(f, items) == Err(ValueError)
  {
    forall k {:trigger Get(UpdatePairs(f, items).value, k)} {
      UpdatePairsFrame(f, items, k);
    }
    UpdatePairsFrame(f, items, SKey(""));
    if v.Str? && v.s != [] {
      UpdateFirstNotPair(f, items);
    }
  }

  /** An item of one character is no pair, so a non-empty string argument fails at once. */
  lemma {:induction false} UpdateFirstNotPair(f: Fields, items: seq<Value>)
    requires items != [] && PairOf(items[0]) == Err(ValueError)
    ensures UpdatePairs(f, items) == Err(ValueError)
    decreases |items|
  {
    if |items| > 1 {
      var n := |items| - 1;
      assert items[..n][0] == items[0];
      UpdateFirstNotPair(f, items[..n]);
    }
  }

  /** A list of one `[key, value]` pair stores that pair: `d.update([["404", x]])` sets `d["404"]`. */
  lemma PairListStores(f: Fields, k: string, v: Value)
    ensures DictUpdate(f, Arr([Arr([Str(k), v])])) == Ok(Put(f, SKey(k), v))
  {
    var items := [Arr([Str(k), v])];
    assert PairOf(items[0]) == Ok((SKey(k), v));
    assert items[..0] == [];
    assert UpdatePairs(f, items) == Ok(Put(f, SKey(k), v));
  }

  /** `needle in container` for a string needle: a key test on a dict, a substring test on a
      string, an element test on a list; any other operand raises TypeError. */
  function InStr(needle: string, container: Value): (r: Result<bool>)
    ensures r.Ok? <==> container.Obj? || container.Str? || container.Arr?
  {
    match container
    case Obj(f) => Ok(SKey(needle) in KeysOf(f))
    case Str(s) => Ok(PyStr.Contains(s, needle))
    case Arr(items) => Ok(Str(needle) in items)
    case _ => Err(TypeError)
  }

  /** `d.get(k)` on a value: AttributeError unless it is a dict. */
  function GetAttr(v: Value, k: string): (r: Result<Option<Value>>)
    ensures r.Ok? <==> v.Obj?
  {
    if v.Obj? then Ok(Get(v.fields, SKey(k))) else Err(AttributeError)
  }

  /** `d[k]` on a value: KeyError when the dict lacks `k`, TypeError when it is no dict. */
  function Index(v: Value, k: string): (r: Result<Value>)
    ensures r.Ok? <==> v.Obj? && SKey(k) in KeysOf(v.fields)
  {
    if !v.Obj? then Err(TypeError)
    else match Get(v.fields, SKey(k))
      case None => Err(KeyError)
      case Some(x) => Ok(x)
  }
}
