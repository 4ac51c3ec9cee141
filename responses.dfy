/** The response table, `_get_allowed_responses`, which `drf_openapi3/schema.py` and
    `drf_openapi3/schemas/advanced.py` share word for word. */
module Responses {
  import opened Wrappers
  import opened PyValue
  import opened PyStr
  import opened PolicyTables
  import Settings3
  import opened Overlay

  /** `METHOD_STATUS_CODES[method][obj_num]`, with `obj_num` chosen by the bulk flag. */
  function RowFor(httpMethod: string, many: bool): (r: Result<CodeRow>)
    ensures r.Ok? <==> httpMethod in TableMethods
    ensures r.Ok? ==> WellFormedRow(r.value)
    ensures r.Ok? ==> forall c :: c in r.value.statusCodes || c in r.value.errorCodes ==>
      Settings3.StatusCodesResponses(c).Some?
  {
    var card := if many then Many else One;
    Settings3.RowsExist(httpMethod, card);
    match Settings3.MethodStatusCodes(httpMethod, card)
    case None => Err(KeyError)
    case Some(row) =>
      Settings3.RowsWellFormed(httpMethod, card);
      forall c | c in row.statusCodes || c in row.errorCodes
        ensures Settings3.StatusCodesResponses(c).Some?
      {
        Settings3.RowCodesDescribed(httpMethod, card, c);
      }
      Ok(row)
  }

  /** `[x for x in codes if x in allowed]`. */
  function KeepAllowed(codes: seq<int>, allowed: seq<int>): (r: seq<int>)
    ensures forall c :: c in r <==> c in codes && c in allowed
    decreases |codes|
  {
    if codes == [] then []
    else
      var n := |codes| - 1;
      assert codes == codes[..n] + [codes[n]];
      KeepAllowed(codes[..n], allowed) + (if codes[n] in allowed then [codes[n]] else [])
  }

  lemma {:induction false} KeepAllowedNoDuplicates(codes: seq<int>, allowed: seq<int>)
    requires NoDuplicates(codes)
    ensures NoDuplicates(KeepAllowed(codes, allowed))
    decreases |codes|
  {
    if codes != [] {
      var n := |codes| - 1;
      KeepAllowedNoDuplicates(codes[..n], allowed);
      assert codes[n] !in codes[..n];
    }
  }

  /** The codes of a row that the view documents: all of them when the view lists no allowed
      codes, else those it lists. */
  function Selected(codes: seq<int>, allowed: seq<int>): (r: seq<int>)
    ensures forall c :: c in r <==> c in codes && (allowed == [] || c in allowed)
    ensures NoDuplicates(codes) ==> NoDuplicates(r)
  {
    if allowed == [] then codes
    else
      assert NoDuplicates(codes) ==> NoDuplicates(KeepAllowed(codes, allowed)) by {
        if NoDuplicates(codes) { KeepAllowedNoDuplicates(codes, allowed); }
      }
      KeepAllowed(codes, allowed)
  }

  /** The response keys `str(c)` of a list of codes. */
  function CodeKeys(codes: seq<int>): (ks: seq<Key>)
    ensures |ks| == |codes|
    decreases |codes|
  {
    if codes == [] then [] else CodeKeys(codes[..|codes| - 1]) + [SKey(IntToString(codes[|codes| - 1]))]
  }

  lemma {:induction false} CodeKeysAt(codes: seq<int>, i: nat)
    requires i < |codes|
    ensures CodeKeys(codes)[i] == SKey(IntToString(codes[i]))
    decreases |codes|
  {
    if i < |codes| - 1 {
      CodeKeysAt(codes[..|codes| - 1], i);
    }
  }

  lemma CodeKeysMember(codes: seq<int>, c: int)
    ensures SKey(IntToString(c)) in CodeKeys(codes) <==> c in codes
  {
    if SKey(IntToString(c)) in CodeKeys(codes) {
      var i :| 0 <= i < |codes| && CodeKeys(codes)[i] == SKey(IntToString(c));
      CodeKeysAt(codes, i);
      IntToStringInjective(codes[i], c);
    }
    if c in codes {
      var i :| 0 <= i < |codes| && codes[i] == c;
      CodeKeysAt(codes, i);
    }
  }

  /** Distinct codes give distinct keys. */
  lemma CodeKeysDistinct(codes: seq<int>)
    requires NoDuplicates(codes)
    ensures forall i, j :: 0 <= i < j < |codes| ==> CodeKeys(codes)[i] != CodeKeys(codes)[j]
  {
    forall i, j | 0 <= i < j < |codes| ensures CodeKeys(codes)[i] != CodeKeys(codes)[j] {
      CodeKeysAt(codes, i);
      CodeKeysAt(codes, j);
      if CodeKeys(codes)[i] == CodeKeys(codes)[j] {
        IntToStringInjective(codes[i], codes[j]);
      }
    }
  }

  /** The description `STATUS_CODES_RESPONSES[c]['description']`; KeyError for a code without one. */
  function Description(c: int): Result<Value> {
    match Settings3.StatusCodesResponses(c)
    case None => Err(KeyError)
    case Some(entry) => Ok(Str(entry.description))
  }

  /** `self._get_status_code_dict(c, schema, STATUS_CODES_RESPONSES[c]['description'])[c]`. */
  function ResponseFor(c: int, schema: Value, media: seq<string>): Result<Value> {
    var description :- Description(c);
    ResponseObject(schema, description, media)
  }

  /** The responses of a list of codes, in order; the first failure wins. */
  function ResponsesFor(codes: seq<int>, schema: Value, media: seq<string>): (r: Result<seq<Value>>)
    ensures r.Ok? ==> |r.value| == |codes|
    decreases |codes|
  {
    if codes == [] then Ok([])
    else
      var prev :- ResponsesFor(codes[..|codes| - 1], schema, media);
      var response :- ResponseFor(codes[|codes| - 1], schema, media);
      Ok(prev + [response])
  }

  lemma {:induction false} ResponsesForAt(codes: seq<int>, schema: Value, media: seq<string>, i: nat)
    requires ResponsesFor(codes, schema, media).Ok? && i < |codes|
    ensures ResponseFor(codes[i], schema, media).Ok?
    ensures ResponsesFor(codes, schema, media).value[i] == ResponseFor(codes[i], schema, media).value
    decreases |codes|
  {
    if i < |codes| - 1 {
      ResponsesForAt(codes[..|codes| - 1], schema, media, i);
    }
  }

  lemma {:induction false} ResponsesForSucceeds(codes: seq<int>, schema: Value, media: seq<string>)
    requires forall c :: c in codes ==> Settings3.StatusCodesResponses(c).Some?
    requires codes == [] || media == [] || schema.Obj?
    ensures ResponsesFor(codes, schema, media).Ok?
    decreases |codes|
  {
    if codes != [] {
      var n := |codes| - 1;
      assert codes == codes[..n] + [codes[n]];
      ResponsesForSucceeds(codes[..n], schema, media);
    }
  }

  lemma {:induction false} ResponsesForErrorSticks(codes: seq<int>, schema: Value, media: seq<string>, i: nat)
    requires i <= |codes| && ResponsesFor(codes[..i], schema, media).Err?
    ensures ResponsesFor(codes, schema, media) == ResponsesFor(codes[..i], schema, media)
    decreases |codes| - i
  {
    if i < |codes| {
      ResponsesForErrStep(codes, schema, media, i);
      ResponsesForErrorSticks(codes, schema, media, i + 1);
    } else {
      assert codes[..i] == codes;
    }
  }

  lemma ResponsesForErrStep(codes: seq<int>, schema: Value, media: seq<string>, i: nat)
    requires i < |codes| && ResponsesFor(codes[..i], schema, media).Err?
    ensures ResponsesFor(codes[..i + 1], schema, media) == ResponsesFor(codes[..i], schema, media)
  {
    assert codes[..i + 1][..i] == codes[..i];
    ResponsesForErrNext(codes[..i + 1], schema, media);
  }

  lemma ResponsesForErrNext(codes: seq<int>, schema: Value, media: seq<string>)
    requires codes != [] && ResponsesFor(codes[..|codes| - 1], schema, media).Err?
    ensures ResponsesFor(codes, schema, media) == ResponsesFor(codes[..|codes| - 1], schema, media)
  {
  }

  /** `acc[k] = v` for each key and value in turn. */
  function PutAll(acc: Fields, ks: seq<Key>, vs: seq<Value>): Fields
    requires |ks| == |vs|
    decreases |ks|
  {
    if ks == [] then acc
    else Put(PutAll(acc, ks[..|ks| - 1], vs[..|vs| - 1]), ks[|ks| - 1], vs[|vs| - 1])
  }

  /** Fresh distinct keys are added after the existing ones, in order. */
  lemma {:induction false} PutAllKeys(acc: Fields, ks: seq<Key>, vs: seq<Value>)
    requires |ks| == |vs|
    requires forall i, j :: 0 <= i < j < |ks| ==> ks[i] != ks[j]
    requires forall k :: k in ks ==> k !in KeysOf(acc)
    ensures KeysOf(PutAll(acc, ks, vs)) == KeysOf(acc) + ks
    decreases |ks|
  {
    if ks != [] {
      var front := FreshDistinctPrefix(KeysOf(acc), ks);
      PutAllKeys(acc, front, vs[..|vs| - 1]);
      PutAllKeysStep(acc, ks, vs);
    }
  }

  /** Distinct keys absent from `old` stay so when the last one is set aside, and the last one
      is absent from both. */
  lemma FreshDistinctPrefix(prior: seq<Key>, ks: seq<Key>) returns (front: seq<Key>)
    requires ks != [] && forall i, j :: 0 <= i < j < |ks| ==> ks[i] != ks[j]
    requires forall k :: k in ks ==> k !in prior
    ensures front == ks[..|ks| - 1]
    ensures forall i, j :: 0 <= i < j < |front| ==> front[i] != front[j]
    ensures forall k :: k in front ==> k !in prior
    ensures ks[|ks| - 1] !in prior && ks[|ks| - 1] !in front
  {
    var n := |ks| - 1;
    front := ks[..n];
    assert ks[n] in ks;
    forall k | k in ks[..n] ensures k !in prior {
      var i :| 0 <= i < n && ks[..n][i] == k;
      assert ks[i] == k;
    }
    forall i | 0 <= i < n ensures ks[..n][i] != ks[n] {
      assert ks[i] != ks[n];
    }
  }

  /** The last key, fresh, goes after the others. */
  lemma PutAllKeysStep(acc: Fields, ks: seq<Key>, vs: seq<Value>)
    requires |ks| == |vs| && ks != []
    requires KeysOf(PutAll(acc, ks[..|ks| - 1], vs[..|vs| - 1])) == KeysOf(acc) + ks[..|ks| - 1]
    requires ks[|ks| - 1] !in KeysOf(acc) && ks[|ks| - 1] !in ks[..|ks| - 1]
    ensures KeysOf(PutAll(acc, ks, vs)) == KeysOf(acc) + ks
  {
    var n := |ks| - 1;
    var p := PutAll(acc, ks[..n], vs[..n]);
    PutFreshKey(p, ks[n], vs[n]);
    AppendLast(KeysOf(acc), ks);
  }

  lemma PutFreshKey(f: Fields, k: Key, v: Value)
    requires k !in KeysOf(f)
    ensures KeysOf(Put(f, k, v)) == KeysOf(f) + [k]
  {
    PutKeys(f, k, v);
  }

  lemma AppendLast<T>(a: seq<T>, s: seq<T>)
    requires s != []
    ensures a + s == (a + s[..|s| - 1]) + [s[|s| - 1]]
  {
    assert s == s[..|s| - 1] + [s[|s| - 1]];
  }

  /** With distinct keys every key ends up holding its own value, and other keys are untouched. */
  lemma {:induction false} PutAllValues(acc: Fields, ks: seq<Key>, vs: seq<Value>)
    requires |ks| == |vs|
    requires forall i, j :: 0 <= i < j < |ks| ==> ks[i] != ks[j]
    ensures forall i :: 0 <= i < |ks| ==> Get(PutAll(acc, ks, vs), ks[i]) == Some(vs[i])
    ensures forall k :: k !in ks ==> Get(PutAll(acc, ks, vs), k) == Get(acc, k)
    decreases |ks|
  {
    if ks != [] {
      var n := |ks| - 1;
      assert ks == ks[..n] + [ks[n]];
      PutAllValues(acc, ks[..n], vs[..n]);
    }
  }

  lemma {:induction false} PutAllDistinct(acc: Fields, ks: seq<Key>, vs: seq<Value>)
    requires |ks| == |vs| && DistinctKeys(acc)
    ensures DistinctKeys(PutAll(acc, ks, vs))
    decreases |ks|
  {
    if ks != [] {
      var n := |ks| - 1;
      PutAllDistinct(acc, ks[..n], vs[..n]);
      PutDistinct(PutAll(acc, ks[..n], vs[..n]), ks[n], vs[n]);
    }
  }

  /** One of the loops of `_get_allowed_responses`: every code in turn sets `acc[str(c)]`. */
  function AddResponses(acc: Fields, codes: seq<int>, schema: Value, media: seq<string>): Result<Fields> {
    var vs :- ResponsesFor(codes, schema, media);
    Ok(PutAll(acc, CodeKeys(codes), vs))
  }

  /** `acc[str(c)]` is the response for code `c` with the given schema and the table description. */
  predicate Responds(acc: Fields, c: int, schema: Value, media: seq<string>) {
    && ResponseFor(c, schema, media).Ok?
    && Get(acc, SKey(IntToString(c))) == Some(ResponseFor(c, schema, media).value)
  }

  /** Every code of a loop without repetitions is documented with its own response, and no key
      outside the loop's changes. */
  lemma AddResponsesValues(acc: Fields, codes: seq<int>, schema: Value, media: seq<string>)
    requires NoDuplicates(codes) && AddResponses(acc, codes, schema, media).Ok?
    ensures forall c :: c in codes ==> Responds(AddResponses(acc, codes, schema, media).value, c, schema, media)
    ensures forall k :: k !in CodeKeys(codes) ==> Get(AddResponses(acc, codes, schema, media).value, k) == Get(acc, k)
  {
    var vs := ResponsesFor(codes, schema, media).value;
    CodeKeysDistinct(codes);
    PutAllValues(acc, CodeKeys(codes), vs);
    forall c | c in codes ensures Responds(AddResponses(acc, codes, schema, media).value, c, schema, media) {
      var i :| 0 <= i < |codes| && codes[i] == c;
      CodeKeysAt(codes, i);
      ResponsesForAt(codes, schema, media, i);
    }
  }

  /** `_get_allowed_responses(method, schema)`: the success codes of the row with the given schema,
      then its error codes with the default error schema, each restricted to the view's allowed
      codes when it lists any. */
  function AllowedResponses(httpMethod: string, many: bool, allowed: seq<int>, schema: Value, media: seq<string>): Result<Fields> {
    var row :- RowFor(httpMethod, many);
    var acc :- AddResponses([], Selected(row.statusCodes, allowed), schema, media);
    AddResponses(acc, Selected(row.errorCodes, allowed), Settings3.DefaultErrorSchema(), media)
  }

  /** A method without a row raises KeyError; a row is always documented when the schema is a
      dict or there is no media type to document it for. */
  lemma AllowedResponsesOutcome(httpMethod: string, many: bool, allowed: seq<int>, schema: Value, media: seq<string>)
    ensures httpMethod !in TableMethods ==> AllowedResponses(httpMethod, many, allowed, schema, media) == Err(KeyError)
    ensures httpMethod in TableMethods && (media == [] || schema.Obj?) ==>
      AllowedResponses(httpMethod, many, allowed, schema, media).Ok?
  {
    if httpMethod in TableMethods && (media == [] || schema.Obj?) {
      var row := RowFor(httpMethod, many).value;
      ResponsesForSucceeds(Selected(row.statusCodes, allowed), schema, media);
      ResponsesForSucceeds(Selected(row.errorCodes, allowed), Settings3.DefaultErrorSchema(), media);
    }
  }

  /** The keys are exactly `str(c)` for the selected success codes and then the selected error
      codes, in table order, so a code is documented iff its row lists it and the view allows it. */
  lemma AllowedResponsesKeys(httpMethod: string, many: bool, allowed: seq<int>, schema: Value, media: seq<string>)
    requires AllowedResponses(httpMethod, many, allowed, schema, media).Ok?
    ensures var row := RowFor(httpMethod, many).value;
      KeysOf(AllowedResponses(httpMethod, many, allowed, schema, media).value)
      == CodeKeys(Selected(row.statusCodes, allowed)) + CodeKeys(Selected(row.errorCodes, allowed))
    ensures DistinctKeys(AllowedResponses(httpMethod, many, allowed, schema, media).value)
    ensures forall c ::
              (SKey(IntToString(c)) in KeysOf(AllowedResponses(httpMethod, many, allowed, schema, media).value)
              <==> (c in RowFor(httpMethod, many).value.statusCodes || c in RowFor(httpMethod, many).value.errorCodes)
                   && (allowed == [] || c in allowed))
  {
    var row := RowFor(httpMethod, many).value;
    var st, er := Selected(row.statusCodes, allowed), Selected(row.errorCodes, allowed);
    var vs := ResponsesFor(st, schema, media).value;
    var ws := ResponsesFor(er, Settings3.DefaultErrorSchema(), media).value;
    var acc := PutAll([], CodeKeys(st), vs);
    var r := PutAll(acc, CodeKeys(er), ws);
    assert AllowedResponses(httpMethod, many, allowed, schema, media).value == r;
    WellFormedRowDisjoint(row);
    CodeKeysDistinct(st);
    CodeKeysDistinct(er);
    PutAllKeys([], CodeKeys(st), vs);
    assert KeysOf([]) == [];
    assert KeysOf(acc) == CodeKeys(st);
    forall k | k in CodeKeys(er) ensures k !in KeysOf(acc) {
      var i :| 0 <= i < |er| && CodeKeys(er)[i] == k;
      CodeKeysAt(er, i);
      CodeKeysMember(st, er[i]);
    }
    PutAllKeys(acc, CodeKeys(er), ws);
    assert KeysOf(r) == CodeKeys(st) + CodeKeys(er);
    forall c ensures SKey(IntToString(c)) in KeysOf(r) <==> c in st || c in er {
      CodeKeysMember(st, c);
      CodeKeysMember(er, c);
    }
    PutAllDistinct([], CodeKeys(st), vs);
    PutAllDistinct(acc, CodeKeys(er), ws);
  }

  /** Success codes carry the given schema and error codes the default error schema, each with the
      table's description. */
  lemma AllowedResponsesValues(httpMethod: string, many: bool, allowed: seq<int>, schema: Value, media: seq<string>)
    requires AllowedResponses(httpMethod, many, allowed, schema, media).Ok?
    ensures var row := RowFor(httpMethod, many).value;
      var r := AllowedResponses(httpMethod, many, allowed, schema, media).value;
      && (forall c :: c in Selected(row.statusCodes, allowed) ==> Responds(r, c, schema, media))
      && (forall c :: c in Selected(row.errorCodes, allowed) ==> Responds(r, c, Settings3.DefaultErrorSchema(), media))
  {
    var row := RowFor(httpMethod, many).value;
    var st, er := Selected(row.statusCodes, allowed), Selected(row.errorCodes, allowed);
    WellFormedRowDisjoint(row);
    AddResponsesValues([], st, schema, media);
    var acc := AddResponses([], st, schema, media).value;
    AddResponsesValues(acc, er, Settings3.DefaultErrorSchema(), media);
    forall c | c in st ensures SKey(IntToString(c)) !in CodeKeys(er) {
      CodeKeysMember(er, c);
    }
  }

  /** One more code extends the responses and the dict by one entry. */
  lemma FillStepOk(acc0: Fields, codes: seq<int>, schema: Value, media: seq<string>, i: nat, vs: seq<Value>)
    requires i < |codes| && ResponsesFor(codes[..i], schema, media) == Ok(vs)
    requires ResponseFor(codes[i], schema, media).Ok?
    ensures var v := ResponseFor(codes[i], schema, media).value;
      && ResponsesFor(codes[..i + 1], schema, media) == Ok(vs + [v])
      && PutAll(acc0, CodeKeys(codes[..i + 1]), vs + [v])
         == Put(PutAll(acc0, CodeKeys(codes[..i]), vs), SKey(IntToString(codes[i])), v)
  {
    assert codes[..i + 1][..i] == codes[..i];
    var v := ResponseFor(codes[i], schema, media).value;
    var ks := CodeKeys(codes[..i + 1]);
    assert ks == CodeKeys(codes[..i]) + [SKey(IntToString(codes[i]))];
    assert ks[..i] == CodeKeys(codes[..i]) && (vs + [v])[..i] == vs;
  }

  /** A failing code ends the loop with its error. */
  lemma FillStepErr(acc0: Fields, codes: seq<int>, schema: Value, media: seq<string>, i: nat, vs: seq<Value>)
    requires i < |codes| && ResponsesFor(codes[..i], schema, media) == Ok(vs)
    requires ResponseFor(codes[i], schema, media).Err?
    ensures AddResponses(acc0, codes, schema, media) == Err(ResponseFor(codes[i], schema, media).error)
  {
    assert codes[..i + 1][..i] == codes[..i];
    ResponsesForErrorSticks(codes, schema, media, i + 1);
  }

  /** Before the first code nothing is added. */
  lemma FillStart(acc0: Fields, codes: seq<int>, schema: Value, media: seq<string>)
    ensures ResponsesFor(codes[..0], schema, media) == Ok([])
    ensures PutAll(acc0, CodeKeys(codes[..0]), []) == acc0
  {
    assert codes[..0] == [];
  }

  /** After the last code the dict is complete. */
  lemma FillDone(acc0: Fields, codes: seq<int>, schema: Value, media: seq<string>, vs: seq<Value>)
    requires ResponsesFor(codes[..|codes|], schema, media) == Ok(vs)
    ensures AddResponses(acc0, codes, schema, media) == Ok(PutAll(acc0, CodeKeys(codes[..|codes|]), vs))
  {
    assert codes[..|codes|] == codes;
  }

  /** One loop of `_get_allowed_responses`, statement by statement. */
  method FillResponses(acc0: Fields, codes: seq<int>, schema: Value, media: seq<string>) returns (r: Result<Fields>)
    ensures r == AddResponses(acc0, codes, schema, media)
  {
    var acc := acc0;
    ghost var vs: seq<Value> := [];
    var i := 0;
    FillStart(acc0, codes, schema, media);
    while i < |codes|
      invariant 0 <= i <= |codes|
      invariant ResponsesFor(codes[..i], schema, media) == Ok(vs)
      invariant acc == PutAll(acc0, CodeKeys(codes[..i]), vs)
    {
      var response := ResponseFor(codes[i], schema, media);
      if response.Err? {
        FillStepErr(acc0, codes, schema, media, i, vs);
        return Err(response.error);
      }
      FillStepOk(acc0, codes, schema, media, i, vs);
      acc := Put(acc, SKey(IntToString(codes[i])), response.value);
      vs := vs + [response.value];
      i := i + 1;
    }
    FillDone(acc0, codes, schema, media, vs);
    r := Ok(acc);
  }

  /** `_get_allowed_responses`: the success loop, then the error loop. */
  method BuildAllowedResponses(httpMethod: string, many: bool, allowed: seq<int>, schema: Value, media: seq<string>)
    returns (r: Result<Fields>)
    ensures r == AllowedResponses(httpMethod, many, allowed, schema, media)
  {
    var row := RowFor(httpMethod, many);
    if row.Err? {
      return Err(row.error);
    }
    var successes := FillResponses([], Selected(row.value.statusCodes, allowed), schema, media);
    if successes.Err? {
      return successes;
    }
    r := FillResponses(successes.value, Selected(row.value.errorCodes, allowed), Settings3.DefaultErrorSchema(), media);
  }
}
