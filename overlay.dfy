/** The parts of `get_operation` that `drf_openapi3/schema.py` and `drf_openapi3/schemas/advanced.py`
    share word for word: the overlay loop, the status-code loop, `_get_media_types_content` and
    `_get_status_code_dict`. */
module Overlay {
  import opened Wrappers
  import opened PyValue
  import opened PyStr
  import opened Docstring
  import Settings3

  /** `schema if schema.get("properties") != {} else {}`. */
  function SchemaOrEmpty(schema: Value): Value {
    if schema.Obj? && Get(schema.fields, SKey("properties")) == Some(Obj([])) then Obj([]) else schema
  }

  /** The dict comprehension `{ct: entry for ct in media}`. */
  function ContentFields(entry: Value, media: seq<string>): (r: Fields)
    ensures forall k :: Get(r, k) == if k.SKey? && k.s in media then Some(entry) else None
    decreases |media|
  {
    if media == [] then []
    else
      var n := |media| - 1;
      assert media == media[..n] + [media[n]];
      Put(ContentFields(entry, media[..n]), SKey(media[n]), entry)
  }

  lemma {:induction false} ContentFieldsDistinct(entry: Value, media: seq<string>)
    ensures DistinctKeys(ContentFields(entry, media))
    decreases |media|
  {
    if media != [] {
      var n := |media| - 1;
      ContentFieldsDistinct(entry, media[..n]);
      PutDistinct(ContentFields(entry, media[..n]), SKey(media[n]), entry);
    }
  }

  /** `_get_media_types_content(schema)`: one `{"schema": ...}` per media type. The schema's `get`
      runs only when there is a media type, so a non-dict schema fails only then. */
  function MediaTypesContent(schema: Value, media: seq<string>): (r: Result<Value>)
    ensures r.Ok? <==> media == [] || schema.Obj?
    ensures r.Ok? ==> r.value.Obj? && DistinctKeys(r.value.fields)
    ensures r.Ok? ==> forall k :: Get(r.value.fields, k) ==
                        if k.SKey? && k.s in media then Some(Obj([(SKey("schema"), SchemaOrEmpty(schema))])) else None
  {
    ContentFieldsDistinct(Obj([(SKey("schema"), SchemaOrEmpty(schema))]), media);
    if media != [] && !schema.Obj? then Err(AttributeError)
    else Ok(Obj(ContentFields(Obj([(SKey("schema"), SchemaOrEmpty(schema))]), media)))
  }

  /** The response object `{"content": ..., "description": ...}`. */
  function ResponseObject(schema: Value, description: Value, media: seq<string>): Result<Value> {
    var content :- MediaTypesContent(schema, media);
    Ok(Obj([(SKey("content"), content), (SKey("description"), description)]))
  }

  /** `_get_status_code_dict(code, schema, description)`. */
  function StatusCodeDict(code: int, schema: Value, description: Value, media: seq<string>): Result<Value> {
    var response :- ResponseObject(schema, description, media);
    Ok(Obj([(IKey(code), response)]))
  }

  /** The status-code dict holds the single key `code`; indexing it with `code`, as every caller
      does, gives the response, whose description is the one passed and whose content has one
      entry per media type. */
  lemma StatusCodeDictIndexed(code: int, schema: Value, description: Value, media: seq<string>)
    requires StatusCodeDict(code, schema, description, media).Ok?
    ensures var d := StatusCodeDict(code, schema, description, media).value;
      && d.Obj? && KeysOf(d.fields) == [IKey(code)]
      && Get(d.fields, IKey(code)) == Some(ResponseObject(schema, description, media).value)
    ensures var resp := ResponseObject(schema, description, media).value;
      && Get(resp.fields, SKey("description")) == Some(description)
      && Get(resp.fields, SKey("content")).value.Obj?
      && forall ct :: ct in media <==> SKey(ct) in KeysOf(Get(resp.fields, SKey("content")).value.fields)
  {
  }

  /** The operation dict and the status-code entries set aside during the overlay loop. */
  datatype OverlayState = OverlayState(operation: Fields, errorCodes: seq<Entry>)

  /** One turn of the first loop of `get_operation`. */
  function OverlayStep(st: OverlayState, e: Entry): Result<OverlayState> {
    if e.key.IKey? then Ok(st.(errorCodes := st.errorCodes + [e]))
    else if !e.append then Ok(st.(operation := Put(st.operation, e.key, e.value)))
    else match Get(st.operation, e.key)
      case None => Err(KeyError)
      case Some(Obj(f)) =>
        var merged :- DictUpdate(f, e.value);
        Ok(st.(operation := Put(st.operation, e.key, Obj(merged))))
      case Some(Arr(items)) => Ok(st.(operation := Put(st.operation, e.key, Arr(items + [e.value]))))
      case Some(_) => Err(NotImplementedError)
  }

  /** An int key is set aside; a string key changes at most its own value, and is assigned
      when the entry does not append. */
  lemma OverlayStepResult(st: OverlayState, e: Entry)
    requires OverlayStep(st, e).Ok?
    ensures var r := OverlayStep(st, e).value;
      && (e.key.IKey? ==> r == st.(errorCodes := st.errorCodes + [e]))
      && (e.key.SKey? ==> r.errorCodes == st.errorCodes)
      && (forall k :: k != e.key ==> Get(r.operation, k) == Get(st.operation, k))
      && (e.key.SKey? && !e.append ==> Get(r.operation, e.key) == Some(e.value))
  {
  }

  /** The first loop of `get_operation` over the overlay, as a left fold that stops at the first
      exception. */
  function OverlayLoop(op: Fields, info: seq<Entry>): (r: Result<OverlayState>)
    ensures r.Ok? ==> AllIntKeyed(r.value.errorCodes)
    decreases |info|
  {
    if info == [] then Ok(OverlayState(op, []))
    else
      var st :- OverlayLoop(op, info[..|info| - 1]);
      var r := OverlayStep(st, info[|info| - 1]);
      if r.Ok? then OverlayStepResult(st, info[|info| - 1]); r else r
  }

  /** An exception ends the loop: once a prefix fails, every longer prefix fails the same way. */
  lemma {:induction false} OverlayLoopErrorSticks(op: Fields, info: seq<Entry>, i: nat)
    requires i <= |info| && OverlayLoop(op, info[..i]).Err?
    ensures OverlayLoop(op, info) == OverlayLoop(op, info[..i])
    decreases |info| - i
  {
    if i < |info| {
      assert info[..i + 1][..i] == info[..i];
      OverlayLoopErrorSticks(op, info, i + 1);
    } else {
      assert info[..i] == info;
    }
  }

  /** One more entry is one more step. */
  lemma OverlayLoopNext(op: Fields, info: seq<Entry>, i: nat, st: OverlayState)
    requires i < |info| && OverlayLoop(op, info[..i]) == Ok(st)
    ensures OverlayLoop(op, info[..i + 1]) == OverlayStep(st, info[i])
  {
    assert info[..i + 1][..i] == info[..i] && info[..i + 1][i] == info[i];
  }

  /** The body of the first loop of `get_operation` for one entry, statement by statement. */
  method ApplyEntry(operation: Fields, errorCodes: seq<Entry>, e: Entry) returns (r: Result<OverlayState>)
    ensures r == OverlayStep(OverlayState(operation, errorCodes), e)
  {
    if e.key.IKey? {
      return Ok(OverlayState(operation, errorCodes + [e]));
    }
    if !e.append {
      return Ok(OverlayState(Put(operation, e.key, e.value), errorCodes));
    }
    var current := Get(operation, e.key);
    if current.None? {
      return Err(KeyError);
    }
    match current.value
    case Obj(f) =>
      var merged := DictUpdate(f, e.value);
      if merged.Err? {
        return Err(merged.error);
      }
      r := Ok(OverlayState(Put(operation, e.key, Obj(merged.value)), errorCodes));
    case Arr(items) =>
      r := Ok(OverlayState(Put(operation, e.key, Arr(items + [e.value])), errorCodes));
    case _ =>
      r := Err(NotImplementedError);
  }

  /** The first loop of `get_operation`: stops at the first entry that raises. */
  method ApplyOverlay(op: Fields, info: seq<Entry>) returns (r: Result<OverlayState>)
    ensures r == OverlayLoop(op, info)
  {
    var operation, errorCodes := op, [];
    var i := 0;
    while i < |info|
      invariant 0 <= i <= |info|
      invariant OverlayLoop(op, info[..i]) == Ok(OverlayState(operation, errorCodes))
    {
      OverlayLoopNext(op, info, i, OverlayState(operation, errorCodes));
      var next := ApplyEntry(operation, errorCodes, info[i]);
      if next.Err? {
        r := next;
        OverlayLoopErrorSticks(op, info, i + 1);
        return;
      }
      operation, errorCodes := next.value.operation, next.value.errorCodes;
      i := i + 1;
    }
    assert info[..i] == info;
    r := Ok(OverlayState(operation, errorCodes));
  }

  /** The int-keyed entries of an overlay, in order. */
  function IntKeyed(info: seq<Entry>): (r: seq<Entry>)
    ensures forall e :: e in r <==> e in info && e.key.IKey?
  {
    if info == [] then []
    else IntKeyed(info[..|info| - 1]) + (if info[|info| - 1].key.IKey? then [info[|info| - 1]] else [])
  }

  /** Int keys are set aside, in order, and never assigned into the operation. */
  lemma {:induction false} OverlaySetsIntKeysAside(op: Fields, info: seq<Entry>)
    requires OverlayLoop(op, info).Ok?
    ensures OverlayLoop(op, info).value.errorCodes == IntKeyed(info)
    ensures forall k: Key :: k.IKey? ==> Get(OverlayLoop(op, info).value.operation, k) == Get(op, k)
    decreases |info|
  {
    if info != [] {
      OverlayLoopLast(op, info);
      OverlaySetsIntKeysAside(op, info[..|info| - 1]);
      OverlayStepResult(OverlayLoop(op, info[..|info| - 1]).value, info[|info| - 1]);
    }
  }

  /** A key that no entry names keeps its value through the loop. */
  lemma {:induction false} OverlayLeavesUnnamedKeys(op: Fields, info: seq<Entry>, k: Key)
    requires OverlayLoop(op, info).Ok?
    requires forall e :: e in info ==> e.key != k
    ensures Get(OverlayLoop(op, info).value.operation, k) == Get(op, k)
    decreases |info|
  {
    if info != [] {
      var n := |info| - 1;
      assert forall e :: e in info[..n] ==> e in info;
      assert info[n] in info;
      OverlayLeavesUnnamedKeys(op, info[..n], k);
      OverlayLoopLastKeeps(op, info, k);
    }
  }

  /** The loop over a non-empty overlay is the loop over all but the last entry, then one step. */
  lemma OverlayLoopLast(op: Fields, info: seq<Entry>)
    requires info != [] && OverlayLoop(op, info).Ok?
    ensures OverlayLoop(op, info[..|info| - 1]).Ok?
    ensures OverlayLoop(op, info) == OverlayStep(OverlayLoop(op, info[..|info| - 1]).value, info[|info| - 1])
  {
  }

  /** A string key that is assigned without append and is not named again later ends with the
      assigned value. */
  lemma {:induction false} OverlayLastOverwriteWins(op: Fields, info: seq<Entry>, j: nat)
    requires OverlayLoop(op, info).Ok?
    requires j < |info| && info[j].key.SKey? && !info[j].append
    requires forall l :: j < l < |info| ==> info[l].key != info[j].key
    ensures Get(OverlayLoop(op, info).value.operation, info[j].key) == Some(info[j].value)
    decreases |info|
  {
    var n := |info| - 1;
    if j < n {
      var prefix := info[..n];
      OverlayLoopLast(op, info);
      assert prefix[j] == info[j];
      assert forall l :: j < l < |prefix| ==> prefix[l] == info[l];
      OverlayLastOverwriteWins(op, prefix, j);
      OverlayLoopLastKeeps(op, info, info[j].key);
    } else {
      OverlayLoopLastAssigns(op, info);
    }
  }

  /** The last step leaves every key but its own alone. */
  lemma OverlayLoopLastKeeps(op: Fields, info: seq<Entry>, k: Key)
    requires info != [] && OverlayLoop(op, info).Ok?
    requires info[|info| - 1].key != k
    ensures OverlayLoop(op, info[..|info| - 1]).Ok?
    ensures Get(OverlayLoop(op, info).value.operation, k) == Get(OverlayLoop(op, info[..|info| - 1]).value.operation, k)
  {
    OverlayLoopLast(op, info);
    OverlayStepResult(OverlayLoop(op, info[..|info| - 1]).value, info[|info| - 1]);
  }

  /** A last entry without append is assigned. */
  lemma OverlayLoopLastAssigns(op: Fields, info: seq<Entry>)
    requires info != [] && OverlayLoop(op, info).Ok?
    requires info[|info| - 1].key.SKey? && !info[|info| - 1].append
    ensures Get(OverlayLoop(op, info).value.operation, info[|info| - 1].key) == Some(info[|info| - 1].value)
  {
    OverlayLoopLast(op, info);
    OverlayStepResult(OverlayLoop(op, info[..|info| - 1]).value, info[|info| - 1]);
  }

  /** With append, a dict is updated in place with the entry's value, a list gets the value as one
      more element, a missing key raises KeyError and any other existing value raises
      NotImplementedError. `dict.update` merges a dict argument and reads any other iterable as
      key/value pairs: an empty string or list changes nothing, a non-empty string raises
      ValueError, a list must hold only pairs, and None, a number or a boolean raises TypeError. */
  lemma OverlayAppendMerges(st: OverlayState, e: Entry)
    requires e.key.SKey? && e.append
    ensures var r := OverlayStep(st, e);
      match Get(st.operation, e.key)
      case None => r == Err(KeyError)
      case Some(Obj(f)) =>
        && (e.value.Obj? && DistinctKeys(e.value.fields) ==>
          r.Ok? && Get(r.value.operation, e.key).value.Obj?
          && (forall k :: k in KeysOf(e.value.fields) ==>
                Get(Get(r.value.operation, e.key).value.fields, k) == Get(e.value.fields, k))
          && (forall k :: k !in KeysOf(e.value.fields) ==>
                Get(Get(r.value.operation, e.key).value.fields, k) == Get(f, k)))
        && (e.value == Str([]) || e.value == Arr([]) ==> r.Ok? && Get(r.value.operation, e.key) == Some(Obj(f)))
        && (e.value.Str? && e.value.s != [] ==> r == Err(ValueError))
        && (e.value.Null? || e.value.Int? || e.value.Bool? ==> r == Err(TypeError))
        && (e.value.Arr? ==> (r.Ok? <==> forall x :: x in e.value.items ==> PairOf(x).Ok?))
        && (e.value.Arr? && r.Ok? ==>
              && Get(r.value.operation, e.key).value.Obj?
              && forall k :: (forall x :: x in e.value.items ==> PairOf(x).Ok? && PairOf(x).value.0 != k) ==>
                   Get(Get(r.value.operation, e.key).value.fields, k) == Get(f, k))
      case Some(Arr(items)) => r.Ok? && Get(r.value.operation, e.key) == Some(Arr(items + [e.value]))
      case Some(_) => r == Err(NotImplementedError)
    ensures OverlayStep(st, e).Ok? ==>
      forall k :: k != e.key ==> Get(OverlayStep(st, e).value.operation, k) == Get(st.operation, k)
  {
    if OverlayStep(st, e).Ok? {
      OverlayStepResult(st, e);
    }
  }

  /** `s["value"]["schema"] if s["value"].get("schema") else DEFAULT_ERROR_SCHEMA`. */
  function EntrySchema(fields: Fields): Value {
    var schema := Get(fields, SKey("schema"));
    if schema.Some? && Truthy(schema.value) then schema.value else Settings3.DefaultErrorSchema()
  }

  /** `operation["responses"][str(code)] = response`. */
  function SetResponse(op: Fields, code: int, response: Value): (r: Result<Fields>)
    ensures r.Ok? <==> Get(op, SKey("responses")).Some? && Get(op, SKey("responses")).value.Obj?
    ensures r.Ok? ==> Get(r.value, SKey("responses")).Some? && Get(r.value, SKey("responses")).value.Obj?
    ensures r.Ok? ==> Get(Get(r.value, SKey("responses")).value.fields, SKey(IntToString(code))) == Some(response)
    ensures r.Ok? ==> forall k :: k != SKey(IntToString(code)) ==>
      Get(Get(r.value, SKey("responses")).value.fields, k) == Get(Get(op, SKey("responses")).value.fields, k)
    ensures r.Ok? ==> forall k :: k != SKey("responses") ==> Get(r.value, k) == Get(op, k)
  {
    match Get(op, SKey("responses"))
    case None => Err(KeyError)
    case Some(Obj(rf)) => Ok(Put(op, SKey("responses"), Obj(Put(rf, SKey(IntToString(code)), response))))
    case Some(_) => Err(TypeError)
  }

  /** One turn of the second loop: `operation["responses"][str(code)]` becomes the response built
      from the entry's own description and schema. As written, a missing or empty description
      indexes the status table with the whole entry, which Python rejects as unhashable. */
  function StatusStep(op: Fields, e: Entry, media: seq<string>): Result<Fields>
    requires e.key.IKey?
  {
    if !e.value.Obj? then Err(AttributeError)
    else
      var description := Get(e.value.fields, SKey("description"));
      if !(description.Some? && Truthy(description.value)) then Err(TypeError)
      else
        var response :- ResponseObject(EntrySchema(e.value.fields), description.value, media);
        SetResponse(op, e.key.i, response)
  }

  /** A step that succeeds writes the response built from the entry's own description and
      schema. */
  lemma StatusStepResult(op: Fields, e: Entry, media: seq<string>)
    requires e.key.IKey? && StatusStep(op, e, media).Ok?
    ensures e.value.Obj? && Get(e.value.fields, SKey("description")).Some?
    ensures ResponseObject(EntrySchema(e.value.fields), Get(e.value.fields, SKey("description")).value, media).Ok?
    ensures StatusStep(op, e, media) == SetResponse(op, e.key.i,
      ResponseObject(EntrySchema(e.value.fields), Get(e.value.fields, SKey("description")).value, media).value)
  {
  }

  predicate AllIntKeyed(codes: seq<Entry>) {
    forall e :: e in codes ==> e.key.IKey?
  }

  /** The second loop of `get_operation`, as a left fold. */
  function StatusLoop(op: Fields, codes: seq<Entry>, media: seq<string>): Result<Fields>
    requires AllIntKeyed(codes)
    decreases |codes|
  {
    if codes == [] then Ok(op)
    else
      var cur :- StatusLoop(op, codes[..|codes| - 1], media);
      StatusStep(cur, codes[|codes| - 1], media)
  }

  lemma {:induction false} StatusLoopErrorSticks(op: Fields, codes: seq<Entry>, media: seq<string>, i: nat)
    requires AllIntKeyed(codes)
    requires i <= |codes| && StatusLoop(op, codes[..i], media).Err?
    ensures StatusLoop(op, codes, media) == StatusLoop(op, codes[..i], media)
    decreases |codes| - i
  {
    if i < |codes| {
      assert codes[..i + 1][..i] == codes[..i];
      StatusLoopErrorSticks(op, codes, media, i + 1);
    } else {
      assert codes[..i] == codes;
    }
  }

  lemma StatusLoopNext(op: Fields, codes: seq<Entry>, media: seq<string>, i: nat, cur: Fields)
    requires AllIntKeyed(codes)
    requires i < |codes| && StatusLoop(op, codes[..i], media) == Ok(cur)
    ensures AllIntKeyed(codes[..i + 1])
    ensures StatusLoop(op, codes[..i + 1], media) == StatusStep(cur, codes[i], media)
  {
    assert codes[..i + 1][..i] == codes[..i] && codes[..i + 1][i] == codes[i];
  }

  /** The second loop of `get_operation`, statement by statement. */
  method ApplyStatusOverlays(op: Fields, codes: seq<Entry>, media: seq<string>) returns (r: Result<Fields>)
    requires AllIntKeyed(codes)
    ensures r == StatusLoop(op, codes, media)
  {
    var operation := op;
    var i := 0;
    while i < |codes|
      invariant 0 <= i <= |codes|
      invariant StatusLoop(op, codes[..i], media) == Ok(operation)
    {
      StatusLoopNext(op, codes, media, i, operation);
      var next := StatusStep(operation, codes[i], media);
      if next.Err? {
        r := next;
        StatusLoopErrorSticks(op, codes, media, i + 1);
        return;
      }
      operation := next.value;
      i := i + 1;
    }
    assert codes[..i] == codes;
    r := Ok(operation);
  }

  /** `op["responses"][str(code)]` is the response built from the status entry `e`: its own
      description and its schema, or the default error schema when it has none. */
  predicate Documents(op: Fields, e: Entry, media: seq<string>) {
    && e.key.IKey? && e.value.Obj?
    && var description := Get(e.value.fields, SKey("description"));
    && description.Some?
    && var response := ResponseObject(EntrySchema(e.value.fields), description.value, media);
    && response.Ok?
    && var responses := Get(op, SKey("responses"));
    && responses.Some? && responses.value.Obj?
    && Get(responses.value.fields, SKey(IntToString(e.key.i))) == Some(response.value)
  }

  lemma StatusStepDocuments(op: Fields, e: Entry, media: seq<string>)
    requires e.key.IKey? && StatusStep(op, e, media).Ok?
    ensures Documents(StatusStep(op, e, media).value, e, media)
  {
    StatusStepResult(op, e, media);
  }

  /** A later step for a different code leaves an earlier code's response alone. */
  lemma StatusStepKeepsOthers(op: Fields, e: Entry, d: Entry, media: seq<string>)
    requires e.key.IKey? && StatusStep(op, e, media).Ok?
    requires Documents(op, d, media) && e.key != d.key
    ensures Documents(StatusStep(op, e, media).value, d, media)
  {
    StatusStepResult(op, e, media);
    if IntToString(e.key.i) == IntToString(d.key.i) {
      IntToStringInjective(e.key.i, d.key.i);
    }
  }

  lemma StatusLoopLast(op: Fields, codes: seq<Entry>, media: seq<string>)
    requires AllIntKeyed(codes) && codes != [] && StatusLoop(op, codes, media).Ok?
    ensures AllIntKeyed(codes[..|codes| - 1]) && codes[|codes| - 1].key.IKey?
    ensures StatusLoop(op, codes[..|codes| - 1], media).Ok?
    ensures StatusLoop(op, codes, media)
         == StatusStep(StatusLoop(op, codes[..|codes| - 1], media).value, codes[|codes| - 1], media)
  {
    assert codes[|codes| - 1] in codes;
  }

  /** The last status entry is documented after the loop. */
  lemma StatusLoopDocumentsLast(op: Fields, codes: seq<Entry>, media: seq<string>)
    requires AllIntKeyed(codes) && codes != [] && StatusLoop(op, codes, media).Ok?
    ensures Documents(StatusLoop(op, codes, media).value, codes[|codes| - 1], media)
  {
    StatusLoopLast(op, codes, media);
    StatusStepDocuments(StatusLoop(op, codes[..|codes| - 1], media).value, codes[|codes| - 1], media);
  }

  /** A code documented before the last step and different from the last entry's stays documented. */
  lemma StatusLoopKeepsDocumented(op: Fields, codes: seq<Entry>, media: seq<string>, d: Entry)
    requires AllIntKeyed(codes) && codes != [] && StatusLoop(op, codes, media).Ok?
    requires StatusLoop(op, codes[..|codes| - 1], media).Ok?
    requires Documents(StatusLoop(op, codes[..|codes| - 1], media).value, d, media)
    requires codes[|codes| - 1].key != d.key
    ensures Documents(StatusLoop(op, codes, media).value, d, media)
  {
    StatusLoopLast(op, codes, media);
    StatusStepKeepsOthers(StatusLoop(op, codes[..|codes| - 1], media).value, codes[|codes| - 1], d, media);
  }

  /** The prefix before the last status entry meets the induction's requirements for an entry
      not repeated later. */
  lemma StatusPrefix(op: Fields, codes: seq<Entry>, media: seq<string>, j: nat) returns (prefix: seq<Entry>)
    requires AllIntKeyed(codes) && StatusLoop(op, codes, media).Ok?
    requires j < |codes| - 1 && forall l :: j < l < |codes| ==> codes[l].key != codes[j].key
    ensures prefix == codes[..|codes| - 1] && AllIntKeyed(prefix) && StatusLoop(op, prefix, media).Ok?
    ensures j < |prefix| && prefix[j] == codes[j] && codes[|codes| - 1].key != codes[j].key
    ensures forall l :: j < l < |prefix| ==> prefix[l].key != prefix[j].key
  {
    prefix := codes[..|codes| - 1];
    StatusLoopLast(op, codes, media);
  }

  /** After the second loop every status entry not repeated later is documented under
      `responses[str(code)]`. */
  lemma {:induction false} StatusOverlaysDocumentCodes(op: Fields, codes: seq<Entry>, media: seq<string>, j: nat)
    requires AllIntKeyed(codes)
    requires StatusLoop(op, codes, media).Ok?
    requires j < |codes| && forall l :: j < l < |codes| ==> codes[l].key != codes[j].key
    ensures Documents(StatusLoop(op, codes, media).value, codes[j], media)
    decreases |codes|
  {
    if j < |codes| - 1 {
      var prefix := StatusPrefix(op, codes, media, j);
      StatusOverlaysDocumentCodes(op, prefix, media, j);
      StatusLoopKeepsDocumented(op, codes, media, codes[j]);
    } else {
      StatusLoopDocumentsLast(op, codes, media);
    }
  }

  lemma {:induction false} StatusOverlaysTouchOnlyResponses(op: Fields, codes: seq<Entry>, media: seq<string>)
    requires AllIntKeyed(codes)
    requires StatusLoop(op, codes, media).Ok?
    ensures forall k :: k != SKey("responses") ==> Get(StatusLoop(op, codes, media).value, k) == Get(op, k)
    decreases |codes|
  {
    if codes != [] {
      StatusOverlaysTouchOnlyResponses(op, codes[..|codes| - 1], media);
    }
  }

  /** A status entry without a description never documents its code: the loop raises. */
  lemma MissingDescriptionRaises(op: Fields, e: Entry, media: seq<string>)
    requires e.key.IKey? && e.value.Obj?
    requires Get(e.value.fields, SKey("description")).None?
    ensures StatusStep(op, e, media) == Err(TypeError)
  {
  }

  /** The same on a concrete overlay `{404: {schema: {}}}`: the 404 response is never written. */
  lemma NotFoundWithoutDescriptionCounterexample(op: Fields, media: seq<string>)
    ensures StatusLoop(op, [Entry(IKey(404), Obj([(SKey("schema"), Obj([]))]), false)], media) == Err(TypeError)
  {
    var codes := [Entry(IKey(404), Obj([(SKey("schema"), Obj([]))]), false)];
    assert codes[..0] == [];
    MissingDescriptionRaises(op, codes[0], media);
  }

  /** The status step as evidently intended: the fallback description is looked up with the
      entry's key, `STATUS_CODES_RESPONSES[s["key"]]`, which raises KeyError only for a code
      without an entry. */
  function StatusStepIntended(op: Fields, e: Entry, media: seq<string>): Result<Fields>
    requires e.key.IKey?
  {
    if !e.value.Obj? then Err(AttributeError)
    else
      var description := Get(e.value.fields, SKey("description"));
      var desc :-
        if description.Some? && Truthy(description.value) then Ok(description.value)
        else match Settings3.StatusCodesResponses(e.key.i)
          case None => Err(KeyError)
          case Some(entry) => Ok(Str(entry.description));
      var response :- ResponseObject(EntrySchema(e.value.fields), desc, media);
      SetResponse(op, e.key.i, response)
  }

  /** With the intended lookup a described code without its own description is documented with
      the table's description and the default error schema. */
  lemma IntendedFallsBackToTable(op: Fields, e: Entry, media: seq<string>)
    requires e.key.IKey? && e.value.Obj?
    requires Get(e.value.fields, SKey("description")).None? && Get(e.value.fields, SKey("schema")).None?
    requires Settings3.StatusCodesResponses(e.key.i).Some?
    requires Get(op, SKey("responses")).Some? && Get(op, SKey("responses")).value.Obj?
    ensures var r := StatusStepIntended(op, e, media);
      var desc := Str(Settings3.StatusCodesResponses(e.key.i).value.description);
      && r.Ok?
      && Get(Get(r.value, SKey("responses")).value.fields, SKey(IntToString(e.key.i)))
         == Some(ResponseObject(Settings3.DefaultErrorSchema(), desc, media).value)
  {
    var desc := Str(Settings3.StatusCodesResponses(e.key.i).value.description);
    assert ResponseObject(Settings3.DefaultErrorSchema(), desc, media).Ok?;
  }

  /** Where the entry does carry a description the intended step is the step as written. */
  lemma IntendedAgreesWhenDescribed(op: Fields, e: Entry, media: seq<string>)
    requires e.key.IKey? && e.value.Obj?
    requires Get(e.value.fields, SKey("description")).Some? && Truthy(Get(e.value.fields, SKey("description")).value)
    ensures StatusStepIntended(op, e, media) == StatusStep(op, e, media)
  {
  }

  /** Both loops of `get_operation`: the overlay, then the response for each status entry. */
  function Overlaid(op: Fields, info: seq<Entry>, media: seq<string>): Result<Fields> {
    var st :- OverlayLoop(op, info);
    StatusLoop(st.operation, st.errorCodes, media)
  }

  /** Both loops, statement by statement. */
  method ApplyOverlays(op: Fields, info: seq<Entry>, media: seq<string>) returns (r: Result<Fields>)
    ensures r == Overlaid(op, info, media)
  {
    var st := ApplyOverlay(op, info);
    if st.Err? {
      return Err(st.error);
    }
    r := ApplyStatusOverlays(st.value.operation, st.value.errorCodes, media);
  }

  /** A key other than `responses` that no entry names comes out of both loops unchanged. */
  lemma OverlaidKeeps(op: Fields, info: seq<Entry>, media: seq<string>, k: Key)
    requires Overlaid(op, info, media).Ok?
    requires k != SKey("responses") && forall e :: e in info ==> e.key != k
    ensures Get(Overlaid(op, info, media).value, k) == Get(op, k)
  {
    var st := OverlayLoop(op, info).value;
    OverlayLeavesUnnamedKeys(op, info, k);
    StatusOverlaysTouchOnlyResponses(st.operation, st.errorCodes, media);
  }

  /** Every status entry of the overlay that is not repeated later ends up documented under
      `responses[str(code)]`. */
  lemma OverlaidDocuments(op: Fields, info: seq<Entry>, media: seq<string>, j: nat)
    requires Overlaid(op, info, media).Ok?
    requires j < |IntKeyed(info)|
    requires forall l :: j < l < |IntKeyed(info)| ==> IntKeyed(info)[l].key != IntKeyed(info)[j].key
    ensures Documents(Overlaid(op, info, media).value, IntKeyed(info)[j], media)
  {
    var st := OverlayLoop(op, info).value;
    OverlaySetsIntKeysAside(op, info);
    StatusOverlaysDocumentCodes(st.operation, st.errorCodes, media, j);
  }
}
