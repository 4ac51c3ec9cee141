/** Reshaping of request and response bodies: `_get_request_body` and `_get_responses` of
    `drf_openapi3/schema.py`, and `get_responses` of `drf_openapi3/schemas/advanced.py`. */
module Bodies {
  import opened Wrappers
  import opened PyValue
  import opened PyStr
  import opened Overlay
  import opened Responses

  /** `flag in schema` holds for a property schema. */
  predicate Flagged(flag: string, v: Value) {
    InStr(flag, v) == Ok(true)
  }

  /** Every property schema supports an `in` test for the flag: it is a dict, a string or a list. */
  predicate Testable(props: Fields, flag: string) {
    forall i :: 0 <= i < |props| ==> InStr(flag, props[i].1).Ok?
  }

  /** The properties whose schema does not carry the flag, in order. */
  function Unflagged(props: Fields, flag: string): Fields
    decreases |props|
  {
    if props == [] then []
    else
      var n := |props| - 1;
      Unflagged(props[..n], flag) + (if Flagged(flag, props[n].1) then [] else [props[n]])
  }

  /** The unflagged properties are properties. */
  lemma {:induction false} UnflaggedSubset(props: Fields, flag: string)
    ensures forall p :: p in Unflagged(props, flag) ==> p in props
    decreases |props|
  {
    if props != [] {
      var n := |props| - 1;
      UnflaggedSubset(props[..n], flag);
      assert props == props[..n] + [props[n]];
    }
  }

  /** The names of the properties whose schema carries the flag, in order. */
  function FlaggedKeys(props: Fields, flag: string): seq<Key>
    decreases |props|
  {
    if props == [] then []
    else
      var n := |props| - 1;
      FlaggedKeys(props[..n], flag) + (if Flagged(flag, props[n].1) then [props[n].0] else [])
  }

  /** The loop `for name, schema in d.copy().items(): if flag in schema: del d[name]`, run over a
      snapshot of the dict while the live dict loses the flagged names. */
  function DropLoop(live: Fields, snapshot: Fields, flag: string): Result<Fields>
    decreases |snapshot|
  {
    if snapshot == [] then Ok(live)
    else
      var n := |snapshot| - 1;
      var cur :- DropLoop(live, snapshot[..n], flag);
      var flagged :- InStr(flag, snapshot[n].1);
      Ok(if flagged then Remove(cur, snapshot[n].0) else cur)
  }

  /** Deleting the next name of the snapshot from the partly filtered dict only drops that pair. */
  lemma RemoveNext(props: Fields, flag: string, i: nat)
    requires DistinctKeys(props) && i < |props|
    ensures Remove(Unflagged(props[..i], flag) + props[i..], props[i].0) == Unflagged(props[..i], flag) + props[i + 1..]
  {
    var k := props[i].0;
    var u := Unflagged(props[..i], flag);
    var tail := props[i..];
    var rest := props[i + 1..];
    NameNotBefore(props, flag, i);
    NameNotAfter(props, i);
    calc {
      Remove(u + tail, k);
      { RemoveConcat(u, tail, k); }
      Remove(u, k) + Remove(tail, k);
      { RemoveAbsent(u, k); }
      u + Remove(tail, k);
      { assert tail[0].0 == k && tail[1..] == rest; }
      u + Remove(rest, k);
      { RemoveAbsent(rest, k); }
      u + rest;
    }
  }

  /** In a dict the name at `i` is not among the names kept before it ... */
  lemma NameNotBefore(props: Fields, flag: string, i: nat)
    requires DistinctKeys(props) && i < |props|
    ensures props[i].0 !in KeysOf(Unflagged(props[..i], flag))
  {
    var u := Unflagged(props[..i], flag);
    UnflaggedSubset(props[..i], flag);
    forall p | p in u ensures p.0 != props[i].0 {
      var j :| 0 <= j < i && props[..i][j] == p;
    }
  }

  /** ... nor among the names after it. */
  lemma NameNotAfter(props: Fields, i: nat)
    requires DistinctKeys(props) && i < |props|
    ensures props[i].0 !in KeysOf(props[i + 1..])
  {
    var rest := props[i + 1..];
    forall j | 0 <= j < |rest| ensures rest[j].0 != props[i].0 {
      assert rest[j] == props[i + 1 + j];
    }
  }

  /** One more name of the snapshot: the deleting loop fails if the schema does not support `in` and
      otherwise deletes the name when the schema carries the flag. */
  lemma DropLoopExtend(live: Fields, snapshot: Fields, flag: string, j: nat)
    requires j < |snapshot|
    ensures var prev := DropLoop(live, snapshot[..j], flag);
      var test := InStr(flag, snapshot[j].1);
      DropLoop(live, snapshot[..j + 1], flag) ==
        if prev.Err? then prev
        else if test.Err? then Err(test.error)
        else Ok(if test.value then Remove(prev.value, snapshot[j].0) else prev.value)
  {
    assert snapshot[..j + 1][..j] == snapshot[..j] && snapshot[..j + 1][j] == snapshot[j];
  }

  /** Testability and the unflagged part, one property further. */
  lemma PrefixStep(props: Fields, flag: string, j: nat)
    requires j < |props|
    ensures Testable(props[..j + 1], flag) <==> Testable(props[..j], flag) && InStr(flag, props[j].1).Ok?
    ensures Unflagged(props[..j + 1], flag) == Unflagged(props[..j], flag) + (if Flagged(flag, props[j].1) then [] else [props[j]])
  {
    var pre := props[..j + 1];
    assert pre[..j] == props[..j] && pre[j] == props[j];
    assert pre == props[..j] + [props[j]];
  }

  /** After a prefix of the snapshot the live dict is the unflagged part of that prefix followed by
      the rest, and the loop fails exactly when a schema in the prefix does not support `in`. */
  predicate DropLoopAfter(props: Fields, flag: string, i: nat)
    requires i <= |props|
  {
    && (DropLoop(props, props[..i], flag).Ok? <==> Testable(props[..i], flag))
    && (DropLoop(props, props[..i], flag).Ok? ==>
          DropLoop(props, props[..i], flag).value == Unflagged(props[..i], flag) + props[i..])
  }

  lemma {:induction false} DropLoopPrefix(props: Fields, flag: string, i: nat)
    requires DistinctKeys(props) && i <= |props|
    ensures DropLoopAfter(props, flag, i)
  {
    if i == 0 {
      assert props[..0] == [];
      assert props[0..] == props;
    } else {
      DropLoopPrefix(props, flag, i - 1);
      DropLoopPrefixStep(props, flag, i - 1);
    }
  }

  /** The state after one more name of the snapshot. */
  lemma DropLoopPrefixStep(props: Fields, flag: string, j: nat)
    requires DistinctKeys(props) && j < |props|
    requires DropLoopAfter(props, flag, j)
    ensures DropLoopAfter(props, flag, j + 1)
  {
    DropLoopStepFails(props, flag, j);
    if DropLoop(props, props[..j + 1], flag).Ok? {
      RemoveNext(props, flag, j);
      DropLoopStepValue(props, flag, j);
    }
  }

  /** One more name fails exactly when its schema does not support `in`. */
  lemma DropLoopStepFails(props: Fields, flag: string, j: nat)
    requires j < |props|
    requires DropLoop(props, props[..j], flag).Ok? <==> Testable(props[..j], flag)
    ensures DropLoop(props, props[..j + 1], flag).Ok? <==> Testable(props[..j + 1], flag)
  {
    PrefixStep(props, flag, j);
    DropLoopExtend(props, props, flag, j);
  }

  /** One more name deletes it from the live dict exactly when its schema carries the flag;
      `removed` is what deleting it from the partly filtered dict leaves (see `RemoveNext`). */
  lemma DropLoopStepValue(props: Fields, flag: string, j: nat)
    requires j < |props|
    requires DropLoop(props, props[..j + 1], flag).Ok?
    requires DropLoop(props, props[..j], flag).Ok? ==>
      DropLoop(props, props[..j], flag).value == Unflagged(props[..j], flag) + props[j..]
    requires Remove(Unflagged(props[..j], flag) + props[j..], props[j].0) == Unflagged(props[..j], flag) + props[j + 1..]
    ensures DropLoop(props, props[..j + 1], flag).value == Unflagged(props[..j + 1], flag) + props[j + 1..]
  {
    var i := j + 1;
    DropLoopExtend(props, props, flag, j);
    var u := Unflagged(props[..j], flag);
    var cur := DropLoop(props, props[..j], flag).value;
    assert cur == u + props[j..];
    if Flagged(flag, props[j].1) {
      assert DropLoop(props, props[..i], flag).value == Remove(cur, props[j].0);
      UnflaggedStep(props, flag, j);
    } else {
      assert DropLoop(props, props[..i], flag).value == cur;
      UnflaggedStep(props, flag, j);
    }
  }

  /** The unflagged part one property further, as the next live dict sees it. */
  lemma UnflaggedStep(props: Fields, flag: string, j: nat)
    requires j < |props|
    ensures Flagged(flag, props[j].1) ==> Unflagged(props[..j + 1], flag) + props[j + 1..] == Unflagged(props[..j], flag) + props[j + 1..]
    ensures !Flagged(flag, props[j].1) ==> Unflagged(props[..j + 1], flag) + props[j + 1..] == Unflagged(props[..j], flag) + props[j..]
  {
    PrefixStep(props, flag, j);
    var u := Unflagged(props[..j], flag);
    assert props[j..] == [props[j]] + props[j + 1..];
    assert u + props[j..] == (u + [props[j]]) + props[j + 1..];
  }

  /** The flagged properties are dropped and every other one is kept in order; the loop fails
      only on a schema that does not support `in`. */
  lemma DropFlaggedKeepsUnflagged(props: Fields, flag: string)
    requires DistinctKeys(props)
    ensures DropLoop(props, props, flag).Ok? <==> Testable(props, flag)
    ensures DropLoop(props, props, flag).Ok? ==> DropLoop(props, props, flag).value == Unflagged(props, flag)
  {
    DropLoopPrefix(props, flag, |props|);
    assert props[..|props|] == props;
    assert props[|props|..] == [];
  }

  lemma {:induction false} DropLoopErrorSticks(live: Fields, snapshot: Fields, flag: string, i: nat)
    requires i <= |snapshot| && DropLoop(live, snapshot[..i], flag).Err?
    ensures DropLoop(live, snapshot, flag) == DropLoop(live, snapshot[..i], flag)
    decreases |snapshot| - i
  {
    if i < |snapshot| {
      assert snapshot[..i + 1][..i] == snapshot[..i];
      DropLoopErrorSticks(live, snapshot, flag, i + 1);
    } else {
      assert snapshot[..i] == snapshot;
    }
  }

  /** The deleting loop, statement by statement. */
  method DropFlaggedProperties(props: Fields, flag: string) returns (r: Result<Fields>)
    ensures r == DropLoop(props, props, flag)
  {
    var snapshot := props;
    var live := props;
    var i := 0;
    while i < |snapshot|
      invariant 0 <= i <= |snapshot|
      invariant DropLoop(props, snapshot[..i], flag) == Ok(live)
    {
      assert snapshot[..i + 1][..i] == snapshot[..i];
      var name, schema := snapshot[i].0, snapshot[i].1;
      var flagged := InStr(flag, schema);
      if flagged.Err? {
        DropLoopErrorSticks(props, snapshot, flag, i + 1);
        return Err(flagged.error);
      }
      if flagged.value {
        live := Remove(live, name);
      }
      i := i + 1;
    }
    assert snapshot[..i] == snapshot;
    r := Ok(live);
  }

  /** The list value equal to a property name. */
  function KeyValue(k: Key): Value {
    match k
    case SKey(s) => Str(s)
    case IKey(i) => Int(i)
  }

  /** `[f for f in required if f not in names]`. */
  function Keep(required: seq<Value>, names: seq<Key>): (r: seq<Value>)
    ensures forall x :: x in r <==> x in required && forall n :: n in names ==> x != KeyValue(n)
  {
    if required == [] then []
    else
      (if forall n :: n in names ==> required[0] != KeyValue(n) then [required[0]] else [])
      + Keep(required[1..], names)
  }

  /** Filtering out one more name after the others is filtering out all of them at once. */
  lemma {:induction false} KeepThenKeep(required: seq<Value>, names: seq<Key>, n: Key)
    ensures Keep(Keep(required, names), [n]) == Keep(required, names + [n])
  {
    if required != [] {
      KeepThenKeep(required[1..], names, n);
      var x := required[0];
      var front := Keep(required, names);
      if forall m :: m in names ==> x != KeyValue(m) {
        assert front == [x] + Keep(required[1..], names);
        assert front[0] == x && front[1..] == Keep(required[1..], names);
      } else {
        assert front == Keep(required[1..], names);
      }
    }
  }

  /** The item schema's `required` list once the names in `names` have been removed from it. */
  function RequiredAfter(item: Fields, names: seq<Key>): Option<Value> {
    match Get(item, SKey("required"))
    case Some(Arr(required)) => Some(Arr(Keep(required, names)))
    case other => other
  }

  /** `del item['properties'][name]`, then `item['required'] = [f for f in item['required'] if
      f != name]` when `'required' in item`. */
  function DropName(item: Fields, name: Key): (r: Result<Fields>)
    ensures r.Ok? <==> && Get(item, SKey("properties")).Some? && Get(item, SKey("properties")).value.Obj?
                       && (Get(item, SKey("required")).None? || Get(item, SKey("required")).value.Arr?)
    ensures r.Ok? ==> Get(r.value, SKey("properties")) == Some(Obj(Remove(Get(item, SKey("properties")).value.fields, name)))
    ensures r.Ok? ==> Get(r.value, SKey("required")) == RequiredAfter(item, [name])
    ensures r.Ok? ==> forall k :: k != SKey("properties") && k != SKey("required") ==> Get(r.value, k) == Get(item, k)
  {
    match Get(item, SKey("properties"))
    case Some(Obj(props)) =>
      var item1 := Put(item, SKey("properties"), Obj(Remove(props, name)));
      assert Get(item1, SKey("required")) == Get(item, SKey("required"));
      (match Get(item1, SKey("required"))
       case None => Ok(item1)
       case Some(Arr(required)) => Ok(Put(item1, SKey("required"), Arr(Keep(required, [name]))))
       case Some(_) => Err(TypeError))
    case Some(_) => Err(TypeError)
    case None => Err(KeyError)
  }

  /** One turn of the write-only loop of `_get_responses`: a flagged property leaves `properties`
      and its name leaves `required`, when there is one. */
  function WriteOnlyStep(item: Fields, p: (Key, Value)): Result<Fields> {
    var flagged :- InStr("writeOnly", p.1);
    if flagged then DropName(item, p.0) else Ok(item)
  }

  function WriteOnlyLoop(item: Fields, snapshot: Fields): Result<Fields>
    decreases |snapshot|
  {
    if snapshot == [] then Ok(item)
    else
      var cur :- WriteOnlyLoop(item, snapshot[..|snapshot| - 1]);
      WriteOnlyStep(cur, snapshot[|snapshot| - 1])
  }

  /** The state after a prefix of the write-only loop. */
  ghost predicate WriteOnlyState(item: Fields, props: Fields, i: nat, cur: Fields)
    requires i <= |props|
  {
    && Get(cur, SKey("properties")) == Some(Obj(Unflagged(props[..i], "writeOnly") + props[i..]))
    && (FlaggedKeys(props[..i], "writeOnly") != [] ==> Get(cur, SKey("required")) == RequiredAfter(item, FlaggedKeys(props[..i], "writeOnly")))
    && (FlaggedKeys(props[..i], "writeOnly") == [] ==> Get(cur, SKey("required")) == Get(item, SKey("required")))
    && forall k :: k != SKey("properties") && k != SKey("required") ==> Get(cur, k) == Get(item, k)
  }

  /** One turn of the write-only loop keeps the prefix state. */
  lemma WriteOnlyStepState(item: Fields, props: Fields, j: nat, cur: Fields)
    requires DistinctKeys(props) && j < |props|
    requires WriteOnlyState(item, props, j, cur) && WriteOnlyStep(cur, props[j]).Ok?
    ensures WriteOnlyState(item, props, j + 1, WriteOnlyStep(cur, props[j]).value)
  {
    UnflaggedStep(props, "writeOnly", j);
    FlaggedKeysStep(props, "writeOnly", j);
    if Flagged("writeOnly", props[j].1) {
      RemoveNext(props, "writeOnly", j);
      WriteOnlyFlaggedState(item, props, j, cur);
    } else {
      WriteOnlyUnflaggedState(item, props, j, cur);
    }
  }

  /** An unflagged property stays, and `required` is untouched. */
  lemma WriteOnlyUnflaggedState(item: Fields, props: Fields, j: nat, cur: Fields)
    requires j < |props| && !Flagged("writeOnly", props[j].1)
    requires WriteOnlyState(item, props, j, cur) && WriteOnlyStep(cur, props[j]).Ok?
    requires Unflagged(props[..j + 1], "writeOnly") + props[j + 1..] == Unflagged(props[..j], "writeOnly") + props[j..]
    requires FlaggedKeys(props[..j + 1], "writeOnly") == FlaggedKeys(props[..j], "writeOnly") + []
    ensures WriteOnlyState(item, props, j + 1, WriteOnlyStep(cur, props[j]).value)
  {
    assert WriteOnlyStep(cur, props[j]).value == cur;
    assert FlaggedKeys(props[..j + 1], "writeOnly") == FlaggedKeys(props[..j], "writeOnly");
  }

  /** The flagged names one property further. */
  lemma FlaggedKeysStep(props: Fields, flag: string, j: nat)
    requires j < |props|
    ensures FlaggedKeys(props[..j + 1], flag)
         == FlaggedKeys(props[..j], flag) + (if Flagged(flag, props[j].1) then [props[j].0] else [])
  {
    assert props[..j + 1][..j] == props[..j] && props[..j + 1][j] == props[j];
  }

  /** A flagged property leaves `properties` and its name joins the names taken out of
      `required`. */
  lemma WriteOnlyFlaggedState(item: Fields, props: Fields, j: nat, cur: Fields)
    requires j < |props| && Flagged("writeOnly", props[j].1)
    requires WriteOnlyState(item, props, j, cur) && WriteOnlyStep(cur, props[j]).Ok?
    requires Remove(Unflagged(props[..j], "writeOnly") + props[j..], props[j].0)
          == Unflagged(props[..j], "writeOnly") + props[j + 1..]
    requires Unflagged(props[..j + 1], "writeOnly") + props[j + 1..] == Unflagged(props[..j], "writeOnly") + props[j + 1..]
    requires FlaggedKeys(props[..j + 1], "writeOnly") == FlaggedKeys(props[..j], "writeOnly") + [props[j].0]
    ensures WriteOnlyState(item, props, j + 1, WriteOnlyStep(cur, props[j]).value)
  {
    var next := WriteOnlyStep(cur, props[j]).value;
    assert next == DropName(cur, props[j].0).value;
    RequiredStep(item, cur, FlaggedKeys(props[..j], "writeOnly"), props[j].0);
  }

  /** Dropping one more name from `required` extends the names already dropped. */
  lemma RequiredStep(item: Fields, cur: Fields, names: seq<Key>, n: Key)
    requires names != [] ==> Get(cur, SKey("required")) == RequiredAfter(item, names)
    requires names == [] ==> Get(cur, SKey("required")) == Get(item, SKey("required"))
    requires DropName(cur, n).Ok?
    ensures Get(DropName(cur, n).value, SKey("required")) == RequiredAfter(item, names + [n])
  {
    match Get(item, SKey("required")) {
      case Some(Arr(required)) =>
        if names == [] {
          KeepNone(required);
        }
        KeepThenKeep(required, names, n);
      case _ =>
    }
  }

  lemma {:induction false} WriteOnlyLoopPrefix(item: Fields, props: Fields, i: nat)
    requires Get(item, SKey("properties")) == Some(Obj(props)) && DistinctKeys(props)
    requires i <= |props| && WriteOnlyLoop(item, props[..i]).Ok?
    ensures WriteOnlyState(item, props, i, WriteOnlyLoop(item, props[..i]).value)
  {
    if i == 0 {
      assert props[..0] == [] && props[0..] == props;
      assert Unflagged(props[..0], "writeOnly") == [] && FlaggedKeys(props[..0], "writeOnly") == [];
      assert Unflagged(props[..0], "writeOnly") + props[0..] == props;
    } else {
      var j := i - 1;
      assert props[..i][..j] == props[..j] && props[..i][j] == props[j];
      assert WriteOnlyLoop(item, props[..j]).Ok?;
      WriteOnlyLoopPrefix(item, props, j);
      var cur := WriteOnlyLoop(item, props[..j]).value;
      assert WriteOnlyLoop(item, props[..i]) == WriteOnlyStep(cur, props[j]);
      WriteOnlyStepState(item, props, j, cur);
    }
  }

  lemma {:induction false} KeepNone(required: seq<Value>)
    ensures Keep(required, []) == required
  {
    if required != [] {
      KeepNone(required[1..]);
    }
  }

  /** `item_schema` once the write-only loop has run: the flagged properties are gone from
      `properties`, and their names from the `required` list, and nothing else changed. */
  lemma WriteOnlyLoopDrops(item: Fields, props: Fields)
    requires Get(item, SKey("properties")) == Some(Obj(props)) && DistinctKeys(props)
    requires WriteOnlyLoop(item, props).Ok?
    ensures var r := WriteOnlyLoop(item, props).value;
      && Get(r, SKey("properties")) == Some(Obj(Unflagged(props, "writeOnly")))
      && Get(r, SKey("required")) == RequiredAfter(item, FlaggedKeys(props, "writeOnly"))
      && forall k :: k != SKey("properties") && k != SKey("required") ==> Get(r, k) == Get(item, k)
  {
    assert props[..|props|] == props && props[|props|..] == [];
    assert Unflagged(props[..|props|], "writeOnly") + props[|props|..] == Unflagged(props, "writeOnly");
    WriteOnlyLoopPrefix(item, props, |props|);
    if FlaggedKeys(props, "writeOnly") == [] {
      match Get(item, SKey("required")) {
        case Some(Arr(required)) => KeepNone(required);
        case _ =>
      }
    }
  }

  lemma {:induction false} WriteOnlyLoopErrorSticks(item: Fields, snapshot: Fields, i: nat)
    requires i <= |snapshot| && WriteOnlyLoop(item, snapshot[..i]).Err?
    ensures WriteOnlyLoop(item, snapshot) == WriteOnlyLoop(item, snapshot[..i])
    decreases |snapshot| - i
  {
    if i < |snapshot| {
      assert snapshot[..i + 1][..i] == snapshot[..i];
      WriteOnlyLoopErrorSticks(item, snapshot, i + 1);
    } else {
      assert snapshot[..i] == snapshot;
    }
  }

  /** The write-only loop, statement by statement. */
  method DropWriteOnly(item: Fields, snapshot: Fields) returns (r: Result<Fields>)
    ensures r == WriteOnlyLoop(item, snapshot)
  {
    var cur := item;
    var i := 0;
    while i < |snapshot|
      invariant 0 <= i <= |snapshot|
      invariant WriteOnlyLoop(item, snapshot[..i]) == Ok(cur)
    {
      assert snapshot[..i + 1][..i] == snapshot[..i];
      var next := WriteOnlyStep(cur, snapshot[i]);
      if next.Err? {
        WriteOnlyLoopErrorSticks(item, snapshot, i + 1);
        return next;
      }
      cur := next.value;
      i := i + 1;
    }
    assert snapshot[..i] == snapshot;
    r := Ok(cur);
  }

  /** `item_schema` of `_get_responses`: `{}` without a serializer, else the serializer's map
      once the write-only loop has run over a copy of its properties. */
  function ItemSchema(serializerMap: Option<Fields>): Result<Value> {
    match serializerMap
    case None => Ok(Obj([]))
    case Some(item) =>
      var props :- Index(Obj(item), "properties");
      if !props.Obj? then Err(AttributeError)
      else
        var r :- WriteOnlyLoop(item, props.fields);
        Ok(Obj(r))
  }

  /** `response_schema`: the item schema, or for a bulk view an array of items, which the
      paginator may wrap on a list view. */
  function ResponseSchema(item: Value, many: bool, listView: bool, paginate: Option<Value -> Value>): Value {
    if !many then item
    else
      var arr := Obj([(SKey("type"), Str("array")), (SKey("items"), item)]);
      if listView && paginate.Some? then paginate.value(arr) else arr
  }

  /** `getattr(settings, 'STATIC_ERROR_CODES', False) is False`: the setting is absent or is the
      boolean False itself. */
  predicate StaticErrorCodesOff(setting: Option<Value>) {
    setting.None? || setting == Some(Bool(false))
  }

  /** The tail of `_get_responses`: a single `'200'` response, or the response table. */
  function ResponsesDict(httpMethod: string, many: bool, allowed: seq<int>, responseSchema: Value,
                         staticErrorCodes: Option<Value>, media: seq<string>): Result<Value> {
    if StaticErrorCodesOff(staticErrorCodes) then
      Ok(Obj([(SKey("200"), Obj([
        (SKey("content"), Obj(ContentFields(Obj([(SKey("schema"), responseSchema)]), media))),
        (SKey("description"), Str(""))]))]))
    else
      var table :- AllowedResponses(httpMethod, many, allowed, responseSchema, media);
      Ok(Obj(table))
  }

  /** Without static error codes there is exactly one response, `'200'`, with an empty
      description and the response schema, unchanged, under every media type. */
  lemma SimpleResponsesSingle200(httpMethod: string, many: bool, allowed: seq<int>, responseSchema: Value,
                                 staticErrorCodes: Option<Value>, media: seq<string>)
    requires StaticErrorCodesOff(staticErrorCodes)
    ensures var r := ResponsesDict(httpMethod, many, allowed, responseSchema, staticErrorCodes, media);
      && r.Ok? && r.value.Obj? && KeysOf(r.value.fields) == [SKey("200")]
      && var ok := Get(r.value.fields, SKey("200")).value;
      && ok.Obj?
      && Get(ok.fields, SKey("description")) == Some(Str(""))
      && Get(ok.fields, SKey("content")).Some? && Get(ok.fields, SKey("content")).value.Obj?
      && forall k :: Get(Get(ok.fields, SKey("content")).value.fields, k)
                     == if k.SKey? && k.s in media then Some(Obj([(SKey("schema"), responseSchema)])) else None
  {
  }

  /** Any other setting documents the response table of the method's row. */
  lemma StaticResponsesUseTable(httpMethod: string, many: bool, allowed: seq<int>, responseSchema: Value,
                                staticErrorCodes: Option<Value>, media: seq<string>)
    requires !StaticErrorCodesOff(staticErrorCodes)
    ensures var r := ResponsesDict(httpMethod, many, allowed, responseSchema, staticErrorCodes, media);
      var table := AllowedResponses(httpMethod, many, allowed, responseSchema, media);
      && r.Ok? == table.Ok?
      && (r.Ok? ==> r.value == Obj(table.value))
  {
  }

  /** Methods that may carry a request body. */
  const BodyMethods: seq<string> := ["PUT", "PATCH", "POST", "DELETE"]

  /** The serializer's map as `_get_request_body` reshapes it: no `required` for PATCH, no
      read-only property, and for a list or bulk view an array whose items hold the properties. */
  function RequestContent(httpMethod: string, content: Fields, bulk: bool): Result<Fields> {
    var c1 := if httpMethod == "PATCH" then Remove(content, SKey("required")) else content;
    var props :- Index(Obj(c1), "properties");
    if !props.Obj? then Err(AttributeError)
    else
      var kept :- DropLoop(props.fields, props.fields, "readOnly");
      var c2 := Put(c1, SKey("properties"), Obj(kept));
      Ok(if bulk then AsArray(c2) else c2)
  }

  /** `properties = content.pop("properties", None)`, `content['type'] = 'array'` and, when the
      properties are truthy, `content['items'] = {'properties': properties}`. */
  function AsArray(content: Fields): (r: Fields)
    ensures Get(r, SKey("properties")) == None && Get(r, SKey("type")) == Some(Str("array"))
    ensures var properties := Get(content, SKey("properties"));
      Get(r, SKey("items")) == if properties.Some? && Truthy(properties.value)
        then Some(Obj([(SKey("properties"), properties.value)])) else Get(content, SKey("items"))
    ensures forall k :: k != SKey("properties") && k != SKey("type") && k != SKey("items") ==> Get(r, k) == Get(content, k)
  {
    var properties := Get(content, SKey("properties"));
    var c := Put(Remove(content, SKey("properties")), SKey("type"), Str("array"));
    if properties.Some? && Truthy(properties.value)
    then Put(c, SKey("items"), Obj([(SKey("properties"), properties.value)]))
    else c
  }

  /** `_get_request_body` once the framework's parsers, serializer and list-view test are known. */
  function RequestBody(httpMethod: string, serializerMap: Option<Fields>, bulk: bool, media: seq<string>): Result<Value> {
    if httpMethod !in BodyMethods || serializerMap.None? then Ok(Obj([]))
    else
      var c :- RequestContent(httpMethod, serializerMap.value, bulk);
      var entry := if Get(c, SKey("properties")) != Some(Obj([])) then Obj([(SKey("schema"), Obj(c))]) else Obj([]);
      Ok(Obj([(SKey("content"), Obj(ContentFields(entry, media)))]))
  }

  /** Outside PUT, PATCH, POST and DELETE, and without a serializer, the body is `{}`. */
  lemma RequestBodyEmptyOutsideWrites(httpMethod: string, serializerMap: Option<Fields>, bulk: bool, media: seq<string>)
    ensures httpMethod !in BodyMethods || serializerMap.None? ==> RequestBody(httpMethod, serializerMap, bulk, media) == Ok(Obj([]))
    ensures httpMethod in BodyMethods && serializerMap.Some? ==>
      RequestBody(httpMethod, serializerMap, bulk, media).Ok? == RequestContent(httpMethod, serializerMap.value, bulk).Ok?
  {
  }

  /** PATCH never requires fields; any other method keeps the serializer's `required` list. */
  lemma RequestContentRequired(httpMethod: string, content: Fields, bulk: bool)
    requires RequestContent(httpMethod, content, bulk).Ok?
    ensures var r := RequestContent(httpMethod, content, bulk).value;
      && (httpMethod == "PATCH" ==> Get(r, SKey("required")) == None)
      && (httpMethod != "PATCH" ==> Get(r, SKey("required")) == Get(content, SKey("required")))
  {
  }

  /** A single-object view keeps exactly the properties without `readOnly`, in order; the loop
      fails only on a property schema that does not support `in`. */
  lemma RequestContentSingle(httpMethod: string, content: Fields)
    requires RequestContent(httpMethod, content, false).Ok?
    requires DistinctKeys(Get(content, SKey("properties")).value.fields)
    ensures var props := Get(content, SKey("properties")).value.fields;
      && Testable(props, "readOnly")
      && Get(RequestContent(httpMethod, content, false).value, SKey("properties")) == Some(Obj(Unflagged(props, "readOnly")))
  {
    var c1 := if httpMethod == "PATCH" then Remove(content, SKey("required")) else content;
    assert Get(c1, SKey("properties")) == Get(content, SKey("properties"));
    DropFlaggedKeepsUnflagged(Get(content, SKey("properties")).value.fields, "readOnly");
  }

  /** A list or bulk view becomes an array: no `properties` key, `type` is `array`, and `items`
      carries the properties without `readOnly` when any is left. */
  lemma RequestContentBulk(httpMethod: string, content: Fields)
    requires RequestContent(httpMethod, content, true).Ok?
    requires DistinctKeys(Get(content, SKey("properties")).value.fields)
    ensures var props := Get(content, SKey("properties")).value.fields;
      var r := RequestContent(httpMethod, content, true).value;
      && Get(r, SKey("properties")) == None && Get(r, SKey("type")) == Some(Str("array"))
      && (Unflagged(props, "readOnly") != [] ==>
            Get(r, SKey("items")) == Some(Obj([(SKey("properties"), Obj(Unflagged(props, "readOnly")))])))
  {
    var c1 := if httpMethod == "PATCH" then Remove(content, SKey("required")) else content;
    assert Get(c1, SKey("properties")) == Get(content, SKey("properties"));
    var props := Get(content, SKey("properties")).value.fields;
    assert Index(Obj(c1), "properties") == Ok(Obj(props));
    DropFlaggedKeepsUnflagged(props, "readOnly");
    var kept := Unflagged(props, "readOnly");
    assert DropLoop(props, props, "readOnly") == Ok(kept);
    var c2 := Put(c1, SKey("properties"), Obj(kept));
    assert RequestContent(httpMethod, content, true) == Ok(AsArray(c2));
    assert Get(c2, SKey("properties")) == Some(Obj(kept));
    assert kept != [] ==> Truthy(Obj(kept));
  }

  /** The response's item schema with a serializer: the write-only properties are gone from its
      `properties` and their names from its `required` list. */
  lemma ItemSchemaDropsWriteOnly(item: Fields)
    requires ItemSchema(Some(item)).Ok?
    requires DistinctKeys(Get(item, SKey("properties")).value.fields)
    ensures var props := Get(item, SKey("properties")).value.fields;
      var r := ItemSchema(Some(item)).value;
      && r.Obj?
      && Get(r.fields, SKey("properties")) == Some(Obj(Unflagged(props, "writeOnly")))
      && Get(r.fields, SKey("required")) == RequiredAfter(item, FlaggedKeys(props, "writeOnly"))
      && forall k :: k != SKey("properties") && k != SKey("required") ==> Get(r.fields, k) == Get(item, k)
  {
    WriteOnlyLoopDrops(item, Get(item, SKey("properties")).value.fields);
  }

  /** `_get_responses` once the renderers, the serializer's map, the list-view test, the
      paginator and the `STATIC_ERROR_CODES` setting are known. */
  function OperationResponses(httpMethod: string, many: bool, allowed: seq<int>, serializerMap: Option<Fields>,
                              listView: bool, paginate: Option<Value -> Value>, staticErrorCodes: Option<Value>,
                              media: seq<string>): Result<Value> {
    var item :- ItemSchema(serializerMap);
    ResponsesDict(httpMethod, many, allowed, ResponseSchema(item, many, listView, paginate), staticErrorCodes, media)
  }

  /** A bulk view documents an array of items, unless a paginator wraps the array of a list view. */
  lemma BulkResponseIsArray(item: Value, listView: bool, paginate: Option<Value -> Value>)
    requires !(listView && paginate.Some?)
    ensures var r := ResponseSchema(item, true, listView, paginate);
      r.Obj? && Get(r.fields, SKey("type")) == Some(Str("array")) && Get(r.fields, SKey("items")) == Some(item)
  {
  }

  /** The body of `_get_responses`, statement by statement. */
  method BuildResponses(httpMethod: string, many: bool, allowed: seq<int>, serializerMap: Option<Fields>,
                        listView: bool, paginate: Option<Value -> Value>, staticErrorCodes: Option<Value>,
                        media: seq<string>) returns (r: Result<Value>)
    ensures r == OperationResponses(httpMethod, many, allowed, serializerMap, listView, paginate, staticErrorCodes, media)
  {
    var item := Obj([]);
    if serializerMap.Some? {
      var props := Index(Obj(serializerMap.value), "properties");
      if props.Err? {
        return Err(props.error);
      }
      if !props.value.Obj? {
        return Err(AttributeError);
      }
      var cleaned := DropWriteOnly(serializerMap.value, props.value.fields);
      if cleaned.Err? {
        return Err(cleaned.error);
      }
      item := Obj(cleaned.value);
    }
    assert ItemSchema(serializerMap) == Ok(item);
    var responseSchema := item;
    if many {
      responseSchema := Obj([(SKey("type"), Str("array")), (SKey("items"), item)]);
      if listView && paginate.Some? {
        responseSchema := paginate.value(responseSchema);
      }
    }
    if StaticErrorCodesOff(staticErrorCodes) {
      var entry := Obj([(SKey("schema"), responseSchema)]);
      r := Ok(Obj([(SKey("200"), Obj([(SKey("content"), Obj(ContentFields(entry, media))), (SKey("description"), Str(""))]))]));
    } else {
      var table := BuildAllowedResponses(httpMethod, many, allowed, responseSchema, media);
      if table.Err? {
        return Err(table.error);
      }
      r := Ok(Obj(table.value));
    }
  }
}
