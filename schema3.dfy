/** `AdvanceAutoSchema` of `drf_openapi3/schema.py`: the per-view schema that adds tags,
    deprecation, the docstring overlay, operation ids and reshaped bodies to what the framework's
    `AutoSchema` produces. */
module Schema3 {
  import opened Wrappers
  import opened PyValue
  import opened PyStr
  import opened ViewAttrs
  import opened Docstring
  import opened Overlay
  import opened Responses
  import opened Bodies

  /** The framework's `method_mapping`, from lower-case HTTP method to the action verb. */
  const MethodMapping: map<string, string> :=
    map["get" := "retrieve", "post" := "create", "put" := "update", "patch" := "partialUpdate", "delete" := "destroy"]

  /** `getattr(self.view, 'action', method.lower())`. */
  function MethodName(view: View, httpMethod: string): string {
    if view.action.Some? then view.action.value else Lower(httpMethod)
  }

  /** The suffix `_get_operation_id` appends to the first tag, and whether the operation handles
      many objects. Looking up a mapped action under an unmapped method raises KeyError. */
  function ActionSuffix(view: View, httpMethod: string, listView: bool): (r: Result<(string, bool)>)
    ensures r.Err? <==> !listView && !HandlesMany(view) && MethodName(view, httpMethod) in MethodMapping
                        && Lower(httpMethod) !in MethodMapping
    ensures r.Err? ==> r.error == KeyError
    ensures r.Ok? ==> (r.value.1 <==> listView || HandlesMany(view))
    ensures r.Ok? && listView ==> r.value.0 == "List"
    ensures r.Ok? && !listView && HandlesMany(view) ==> r.value.0 == "List" + Title(httpMethod)
  {
    if listView then Ok(("List", true))
    else if HandlesMany(view) then Ok(("List" + Title(httpMethod), true))
    else if MethodName(view, httpMethod) !in MethodMapping then Ok((Title(MethodName(view, httpMethod)), false))
    else if Lower(httpMethod) !in MethodMapping then Err(KeyError)
    else Ok((Title(MethodMapping[Lower(httpMethod)]), false))
  }

  /** `name` after `name[:-n]` when it ends with `suffix`, unchanged otherwise. */
  function StripSuffix(name: string, suffix: string): (r: string)
    ensures suffix != [] && EndsWith(name, suffix) ==> name == r + suffix
    ensures !EndsWith(name, suffix) ==> r == name
  {
    if EndsWith(name, suffix) then DropLast(name, |suffix|) else name
  }

  /** No truthy `operation`, no model and no serializer: the view class names the resource, the
      one branch that calls `action.title()`. */
  predicate NamedByClass(view: View) {
    !(view.operation.Some? && view.operation.value != []) && view.modelName.None? && view.serializerClassName.None?
  }

  /** The resource name of the operation id, in priority order: a truthy `operation` attribute,
      the queryset's model, the serializer class without `Serializer`, and last the view class
      without `APIView` (else `View`) and without the titled action. */
  function ResourceName(view: View, action: string): string {
    if view.operation.Some? && view.operation.value != [] then view.operation.value
    else if view.modelName.Some? then view.modelName.value
    else if view.serializerClassName.Some? then StripSuffix(view.serializerClassName.value, "Serializer")
    else
      var name := if EndsWith(view.className, "APIView") then StripSuffix(view.className, "APIView")
                  else StripSuffix(view.className, "View");
      if EndsWith(name, Title(action)) then DropLast(name, |action|) else name
  }

  /** The naive plural: an `s` is appended for many objects unless the name already ends in one. */
  function Pluralize(name: string, many: bool): (r: string)
    ensures r == name || r == name + "s"
    ensures many ==> EndsWith(r, "s")
    ensures !many || EndsWith(name, "s") ==> r == name
  {
    if many && !EndsWith(name, "s") then name + "s" else name
  }

  /** `_get_operation_id`: first tag, action suffix and resource name. `action += suffix` raises
      TypeError unless the first tag is a string or a list; a list is extended by the suffix's
      characters, and then `action.title()` raises AttributeError in the view-class branch and
      `action + name` raises TypeError in the others. */
  function OperationId(view: View, httpMethod: string, listView: bool): Result<string> {
    var suffix :- ActionSuffix(view, httpMethod, listView);
    var first := FirstTag(view);
    var action :- InPlaceAdd(if first.Some? then first.value else Null, suffix.0);
    if action.Str? then Ok(action.s + Pluralize(ResourceName(view, action.s), suffix.1))
    else if NamedByClass(view) then Err(AttributeError)
    else Err(TypeError)
  }

  /** The operation id starts with the first tag and the action suffix. */
  lemma OperationIdStartsWithTag(view: View, httpMethod: string, listView: bool)
    requires OperationId(view, httpMethod, listView).Ok?
    ensures var r := OperationId(view, httpMethod, listView).value;
      && FirstTag(view).Some? && FirstTag(view).value.Str?
      && ActionSuffix(view, httpMethod, listView).Ok?
      && var prefix := FirstTag(view).value.s + ActionSuffix(view, httpMethod, listView).value.0;
      && |prefix| <= |r| && r[..|prefix|] == prefix
  {
    var suffix := ActionSuffix(view, httpMethod, listView).value;
    var action := FirstTag(view).value.s + suffix.0;
    var r := action + Pluralize(ResourceName(view, action), suffix.1);
    assert OperationId(view, httpMethod, listView) == Ok(r);
    assert r[..|action|] == action;
  }

  /** The operation fails exactly when the suffix lookup raises KeyError or the first tag is
      missing or no string; the KeyError is raised first. A list-valued first tag raises
      AttributeError when the view class names the resource, every other failure TypeError. */
  lemma OperationIdErrors(view: View, httpMethod: string, listView: bool)
    ensures ActionSuffix(view, httpMethod, listView).Err? ==> OperationId(view, httpMethod, listView) == Err(KeyError)
    ensures ActionSuffix(view, httpMethod, listView).Ok? ==>
      (OperationId(view, httpMethod, listView).Err? <==> Tags(view) == [] || !Tags(view)[0].Str?)
    ensures ActionSuffix(view, httpMethod, listView).Ok? && Tags(view) != [] && Tags(view)[0].Arr? ==>
      OperationId(view, httpMethod, listView) == Err(if NamedByClass(view) then AttributeError else TypeError)
    ensures ActionSuffix(view, httpMethod, listView).Ok? && (Tags(view) == [] || !(Tags(view)[0].Str? || Tags(view)[0].Arr?)) ==>
      OperationId(view, httpMethod, listView) == Err(TypeError)
  {
  }

  /** List and bulk operations are named in the plural. */
  lemma OperationIdPluralForMany(view: View, httpMethod: string, listView: bool)
    requires OperationId(view, httpMethod, listView).Ok?
    requires listView || HandlesMany(view)
    ensures EndsWith(OperationId(view, httpMethod, listView).value, "s")
  {
    var suffix := ActionSuffix(view, httpMethod, listView).value;
    var action := FirstTag(view).value.s + suffix.0;
    var name := Pluralize(ResourceName(view, action), suffix.1);
    assert OperationId(view, httpMethod, listView) == Ok(action + name);
    assert (action + name)[|action + name| - 1..] == name[|name| - 1..];
  }

  /** A truthy `operation` attribute names the resource, whatever else the view has. */
  lemma NameFromOperation(view: View, action: string)
    requires view.operation.Some? && view.operation.value != []
    ensures ResourceName(view, action) == view.operation.value
  {
  }

  /** Without an `operation` attribute the queryset's model names the resource. */
  lemma NameFromModel(view: View, action: string)
    requires view.operation.None? || view.operation.value == []
    requires view.modelName.Some?
    ensures ResourceName(view, action) == view.modelName.value
  {
  }

  /** Next comes the serializer class, without its `Serializer` suffix. */
  lemma NameFromSerializer(view: View, action: string, base: string)
    requires view.operation.None? || view.operation.value == []
    requires view.modelName.None? && view.serializerClassName == Some(base + "Serializer")
    ensures ResourceName(view, action) == base
  {
    var n := base + "Serializer";
    assert n[|n| - 10..] == "Serializer";
    assert n[..|n| - 10] == base;
  }

  /** Last comes the view class, without `APIView` and without the titled action it ends with. */
  lemma NameFromViewClass(view: View, action: string, base: string)
    requires view.operation.None? || view.operation.value == []
    requires view.modelName.None? && view.serializerClassName.None?
    requires action != [] && view.className == base + Title(action) + "APIView"
    ensures ResourceName(view, action) == base
  {
    var n := base + Title(action) + "APIView";
    assert n[|n| - 7..] == "APIView";
    assert n[..|n| - 7] == base + Title(action);
    var m := base + Title(action);
    assert m[|m| - |Title(action)|..] == Title(action);
    assert m[..|m| - |action|] == base;
  }

  /** `tags` and `deprecated` as `get_operation` sets them before the overlay. */
  function Prepared(view: View, base: Fields): (r: Fields)
    ensures Get(r, SKey("tags")) == Some(Arr(Tags(view)))
    ensures Deprecated(view) ==> Get(r, SKey("deprecated")) == Some(Bool(true))
    ensures !Deprecated(view) ==> Get(r, SKey("deprecated")) == Get(base, SKey("deprecated"))
    ensures forall k :: k != SKey("tags") && k != SKey("deprecated") ==> Get(r, k) == Get(base, k)
  {
    var op := Put(base, SKey("tags"), Arr(Tags(view)));
    if Deprecated(view) then Put(op, SKey("deprecated"), Bool(true)) else op
  }

  /** `get_operation` once the framework's operation and the docstring overlay are known;
      a single-object DELETE loses its `requestBody`, which must then exist. */
  function Operation(view: View, httpMethod: string, base: Fields, info: seq<Entry>, media: seq<string>): (r: Result<Fields>)
    ensures r.Ok? ==> Overlaid(Prepared(view, base), info, media).Ok?
    ensures r.Ok? ==> forall k :: k != SKey("requestBody") ==>
      Get(r.value, k) == Get(Overlaid(Prepared(view, base), info, media).value, k)
    ensures r.Ok? && !HandlesMany(view) && httpMethod == "DELETE" ==> Get(r.value, SKey("requestBody")) == None
    ensures r.Ok? && !(!HandlesMany(view) && httpMethod == "DELETE") ==> r.value == Overlaid(Prepared(view, base), info, media).value
    ensures Overlaid(Prepared(view, base), info, media).Ok? ==>
      (r.Ok? <==> !(!HandlesMany(view) && httpMethod == "DELETE")
                  || SKey("requestBody") in KeysOf(Overlaid(Prepared(view, base), info, media).value))
  {
    var op :- Overlaid(Prepared(view, base), info, media);
    if !HandlesMany(view) && httpMethod == "DELETE" then
      if SKey("requestBody") in KeysOf(op) then Ok(Remove(op, SKey("requestBody"))) else Err(KeyError)
    else Ok(op)
  }

  /** A single-object DELETE whose framework operation has no `requestBody` (the body
      `_get_request_body` gives a view without a serializer is `{}`) raises KeyError, even with no
      docstring overlay at all. */
  lemma DeleteWithoutBodyRaises(view: View, base: Fields, media: seq<string>)
    requires !HandlesMany(view) && SKey("requestBody") !in KeysOf(base)
    ensures Operation(view, "DELETE", base, [], media) == Err(KeyError)
  {
    var op := Prepared(view, base);
    assert Get(op, SKey("requestBody")) == Get(base, SKey("requestBody"));
    OverlaidNothing(op, media);
    assert SKey("requestBody") !in KeysOf(op);
  }

  /** Without overlay entries both loops leave the operation as it is. */
  lemma OverlaidNothing(op: Fields, media: seq<string>)
    ensures Overlaid(op, [], media) == Ok(op)
  {
    assert OverlayLoop(op, []) == Ok(OverlayState(op, []));
    assert StatusLoop(op, [], media) == Ok(op);
  }

  /** `get_operation` as evidently intended: the request body of a single-object DELETE is
      dropped when there is one, `operation.pop("requestBody", None)`. */
  function OperationIntended(view: View, httpMethod: string, base: Fields, info: seq<Entry>, media: seq<string>): (r: Result<Fields>)
    ensures Overlaid(Prepared(view, base), info, media).Ok? <==> r.Ok?
    ensures r.Ok? && !HandlesMany(view) && httpMethod == "DELETE" ==> Get(r.value, SKey("requestBody")) == None
    ensures r.Ok? ==> forall k :: k != SKey("requestBody") ==>
      Get(r.value, k) == Get(Overlaid(Prepared(view, base), info, media).value, k)
  {
    var op :- Overlaid(Prepared(view, base), info, media);
    if !HandlesMany(view) && httpMethod == "DELETE" then Ok(Remove(op, SKey("requestBody"))) else Ok(op)
  }

  /** Wherever the written `get_operation` succeeds, the intended one gives the same operation. */
  lemma IntendedAgreesWhenBodyPresent(view: View, httpMethod: string, base: Fields, info: seq<Entry>, media: seq<string>)
    requires Operation(view, httpMethod, base, info, media).Ok?
    ensures OperationIntended(view, httpMethod, base, info, media) == Operation(view, httpMethod, base, info, media)
  {
  }

  /** The operation's `tags` are the view's tags unless an overlay entry names `tags`. */
  lemma OperationSetsTags(view: View, httpMethod: string, base: Fields, info: seq<Entry>, media: seq<string>)
    requires Operation(view, httpMethod, base, info, media).Ok?
    requires forall e :: e in info ==> e.key != SKey("tags")
    ensures Get(Operation(view, httpMethod, base, info, media).value, SKey("tags")) == Some(Arr(Tags(view)))
  {
    OverlaidKeeps(Prepared(view, base), info, media, SKey("tags"));
  }

  /** A deprecated view's operation says `deprecated: True`; any other view's operation keeps what
      the framework gave, unless an overlay entry names `deprecated`. */
  lemma OperationDeprecation(view: View, httpMethod: string, base: Fields, info: seq<Entry>, media: seq<string>)
    requires Operation(view, httpMethod, base, info, media).Ok?
    requires forall e :: e in info ==> e.key != SKey("deprecated")
    ensures var r := Operation(view, httpMethod, base, info, media).value;
      && (Deprecated(view) ==> Get(r, SKey("deprecated")) == Some(Bool(true)))
      && (!Deprecated(view) ==> Get(r, SKey("deprecated")) == Get(base, SKey("deprecated")))
  {
    OverlaidKeeps(Prepared(view, base), info, media, SKey("deprecated"));
  }

  /** A single-object DELETE has no request body; any other operation keeps the framework's,
      unless an overlay entry names `requestBody`. */
  lemma OperationRequestBody(view: View, httpMethod: string, base: Fields, info: seq<Entry>, media: seq<string>)
    requires Operation(view, httpMethod, base, info, media).Ok?
    ensures !HandlesMany(view) && httpMethod == "DELETE" ==>
      Get(Operation(view, httpMethod, base, info, media).value, SKey("requestBody")) == None
    ensures !(!HandlesMany(view) && httpMethod == "DELETE") && (forall e :: e in info ==> e.key != SKey("requestBody")) ==>
      Get(Operation(view, httpMethod, base, info, media).value, SKey("requestBody")) == Get(base, SKey("requestBody"))
  {
    if forall e :: e in info ==> e.key != SKey("requestBody") {
      OverlaidKeeps(Prepared(view, base), info, media, SKey("requestBody"));
    }
  }

  /** Each numeric overlay entry not repeated later documents its code in `responses`. */
  lemma OperationDocumentsCodes(view: View, httpMethod: string, base: Fields, info: seq<Entry>, media: seq<string>, j: nat)
    requires Operation(view, httpMethod, base, info, media).Ok?
    requires j < |IntKeyed(info)|
    requires forall l :: j < l < |IntKeyed(info)| ==> IntKeyed(info)[l].key != IntKeyed(info)[j].key
    ensures Documents(Operation(view, httpMethod, base, info, media).value, IntKeyed(info)[j], media)
  {
    OverlaidDocuments(Prepared(view, base), info, media, j);
  }

  /** The append flags `get_docstring` passes to `_get_yaml_docstring`: `tags=True, responses=True`. */
  const DocstringFlags: map<Key, bool> := map[SKey("tags") := true, SKey("responses") := true]

  /** `get_operation` with the overlay that `get_docstring` reads from the docstring text, for the
      lower-cased HTTP method. */
  function DocumentedOperation(
    view: View, httpMethod: string, base: Fields, docstring: string, coerce: map<string, string>,
    load: string -> YamlOutcome, dedentLines: string -> seq<string>, media: seq<string>): Result<Fields>
  {
    var info :- YamlDocstring(Lower(httpMethod), docstring, DocstringFlags, coerce, load, dedentLines);
    Operation(view, httpMethod, base, info, media)
  }

  /** The single-object DELETE of a framework operation without `requestBody`: the one case in
      which a harmless overlay still fails. */
  predicate LosesMissingBody(view: View, httpMethod: string, base: Fields) {
    !HandlesMany(view) && httpMethod == "DELETE" && SKey("requestBody") !in KeysOf(base)
  }

  /** An overlay of one string-keyed entry that does not append assigns that key. */
  lemma OverlaidAssigns(op: Fields, e: Entry, media: seq<string>)
    requires e.key.SKey? && !e.append
    ensures Overlaid(op, [e], media) == Ok(Put(op, e.key, e.value))
  {
    assert [e][..0] == [];
    assert OverlayLoop(op, [e]) == Ok(OverlayState(Put(op, e.key, e.value), []));
  }

  /** `get_operation` over an overlay whose loops give `op'` from `Prepared(view, base)`, where
      `op'` has the framework's `requestBody`. */
  lemma OperationOfOverlaid(view: View, httpMethod: string, base: Fields, info: seq<Entry>, media: seq<string>, op': Fields)
    requires Overlaid(Prepared(view, base), info, media) == Ok(op')
    requires Get(op', SKey("requestBody")) == Get(base, SKey("requestBody"))
    ensures Operation(view, httpMethod, base, info, media).Ok? <==> !LosesMissingBody(view, httpMethod, base)
    ensures Operation(view, httpMethod, base, info, media).Ok? ==>
      forall k :: k != SKey("requestBody") ==> Get(Operation(view, httpMethod, base, info, media).value, k) == Get(op', k)
  {
  }

  /** A docstring `{method: {summary: x}}` sets the operation's `summary` to the stripped `x`;
      generation fails only for a single-object DELETE without a request body. */
  lemma DocstringSummaryReachesOperation(
    view: View, httpMethod: string, base: Fields, docstring: string, coerce: map<string, string>,
    load: string -> YamlOutcome, dedentLines: string -> seq<string>, media: seq<string>, x: string)
    requires var m := CoerceMethod(Lower(httpMethod), coerce);
      load(YamlSafeClean(docstring)) == Loaded(Obj([(SKey(m), Obj([(SKey("summary"), Str(x))]))]))
    ensures var r := DocumentedOperation(view, httpMethod, base, docstring, coerce, load, dedentLines, media);
      && (r.Ok? <==> !LosesMissingBody(view, httpMethod, base))
      && (r.Ok? ==> Get(r.value, SKey("summary")) == Some(Str(Strip(x))))
  {
    var m := CoerceMethod(Lower(httpMethod), coerce);
    var section := Obj([(SKey("summary"), Str(x))]);
    assert KeysOf([(SKey(m), section)]) == [SKey(m)];
    assert Section(m, Obj([(SKey(m), section)])) == Ok(section);
    assert SKey("summary") in ValidProperties;
    var e := Entry(SKey("summary"), Str(Strip(x)), false);
    assert section.fields[1..] == [];
    assert SelectValid(section.fields, DocstringFlags) == [e];
    assert YamlDocstring(Lower(httpMethod), docstring, DocstringFlags, coerce, load, dedentLines) == Ok([e]);
    var op := Prepared(view, base);
    OverlaidAssigns(op, e, media);
    OperationOfOverlaid(view, httpMethod, base, [e], media, Put(op, e.key, e.value));
  }

  /** Any other YAML error (a control character the cleaner keeps, a misplaced block, an unknown
      tag) is not caught: `get_operation` raises it, whatever the view and the framework's
      operation. */
  lemma OtherYamlErrorReachesOperation(
    view: View, httpMethod: string, base: Fields, docstring: string, coerce: map<string, string>,
    load: string -> YamlOutcome, dedentLines: string -> seq<string>, media: seq<string>)
    requires load(YamlSafeClean(docstring)) == OtherYamlError
    ensures DocumentedOperation(view, httpMethod, base, docstring, coerce, load, dedentLines, media) == Err(YAMLError)
  {
    OtherYamlErrorEscapes(Lower(httpMethod), docstring, DocstringFlags, coerce, load, dedentLines);
  }

  /** A docstring the YAML scanner rejects becomes the operation's `description`: the dedented text
      with each line stripped; generation fails only for a single-object DELETE without a request
      body. */
  lemma ScannerErrorReachesOperation(
    view: View, httpMethod: string, base: Fields, docstring: string, coerce: map<string, string>,
    load: string -> YamlOutcome, dedentLines: string -> seq<string>, media: seq<string>)
    requires load(YamlSafeClean(docstring)) == ScannerError
    ensures var r := DocumentedOperation(view, httpMethod, base, docstring, coerce, load, dedentLines, media);
      && (r.Ok? <==> !LosesMissingBody(view, httpMethod, base))
      && (r.Ok? ==> Get(r.value, SKey("description")) == Some(Str(JoinStripped(dedentLines(docstring)))))
  {
    var e := Entry(SKey("description"), Str(JoinStripped(dedentLines(docstring))), false);
    assert YamlDocstring(Lower(httpMethod), docstring, DocstringFlags, coerce, load, dedentLines) == Ok([e]);
    var op := Prepared(view, base);
    OverlaidAssigns(op, e, media);
    OperationOfOverlaid(view, httpMethod, base, [e], media, Put(op, e.key, e.value));
  }

  /** The overlay of a docstring `{method: {200: {description: d, schema: s}}}` is its one entry. */
  lemma StatusDocstringEntry(
    httpMethod: string, docstring: string, coerce: map<string, string>,
    load: string -> YamlOutcome, dedentLines: string -> seq<string>, entryValue: Value)
    requires entryValue.Obj?
    requires var m := CoerceMethod(Lower(httpMethod), coerce);
      load(YamlSafeClean(docstring)) == Loaded(Obj([(SKey(m), Obj([(IKey(200), entryValue)]))]))
    ensures YamlDocstring(Lower(httpMethod), docstring, DocstringFlags, coerce, load, dedentLines)
         == Ok([Entry(IKey(200), entryValue, false)])
  {
    var m := CoerceMethod(Lower(httpMethod), coerce);
    var section := Obj([(IKey(200), entryValue)]);
    var yml := Obj([(SKey(m), section)]);
    assert KeysOf(yml.fields) == [SKey(m)];
    assert InStr(m, yml) == Ok(true);
    assert Index(yml, m) == Ok(section);
    assert Section(m, yml) == Ok(section);
    YamlFromSection(Lower(httpMethod), docstring, DocstringFlags, coerce, load, dedentLines, yml);
    StatusSelected(entryValue);
  }

  lemma StatusSelected(entryValue: Value)
    requires entryValue.Obj?
    ensures SelectValid([(IKey(200), entryValue)], DocstringFlags) == [Entry(IKey(200), entryValue, false)]
  {
    var f := [(IKey(200), entryValue)];
    assert IKey(200) in ValidProperties by {
      assert ValidProperties[4] == IKey(200);
    }
    assert f[1..] == [];
    assert ManyFlag(DocstringFlags, IKey(200)) == false;
  }

  /** Both loops over an overlay of one status entry are that entry's step. */
  lemma OverlaidStatusOnly(op: Fields, e: Entry, media: seq<string>)
    requires e.key.IKey?
    ensures Overlaid(op, [e], media) == StatusStep(op, e, media)
  {
    var codes := [e];
    assert codes[..0] == [] && codes[..1] == codes;
    OverlayLoopNext(op, codes, 0, OverlayState(op, []));
    assert OverlayStep(OverlayState(op, []), e) == Ok(OverlayState(op, [] + [e]));
    assert [] + [e] == codes;
    StatusLoopNext(op, codes, media, 0, op);
  }

  /** A docstring `{method: {200: {description: d, schema: s}}}` documents `responses["200"]` with
      `d` and `s` under every media type, when the framework's operation has a `responses` dict;
      generation fails only for a single-object DELETE without a request body. */
  lemma DocstringStatusReachesResponses(
    view: View, httpMethod: string, base: Fields, docstring: string, coerce: map<string, string>,
    load: string -> YamlOutcome, dedentLines: string -> seq<string>, media: seq<string>,
    d: string, schema: Value)
    requires var m := CoerceMethod(Lower(httpMethod), coerce);
      load(YamlSafeClean(docstring)) == Loaded(Obj([(SKey(m), Obj([(IKey(200),
        Obj([(SKey("description"), Str(d)), (SKey("schema"), schema)]))]))]))
    requires d != [] && schema.Obj? && schema.fields != []
    requires Get(base, SKey("responses")).Some? && Get(base, SKey("responses")).value.Obj?
    ensures ResponseObject(schema, Str(d), media).Ok?
    ensures var r := DocumentedOperation(view, httpMethod, base, docstring, coerce, load, dedentLines, media);
      && (r.Ok? <==> !LosesMissingBody(view, httpMethod, base))
      && (r.Ok? ==>
            && Get(r.value, SKey("responses")).Some? && Get(r.value, SKey("responses")).value.Obj?
            && Get(Get(r.value, SKey("responses")).value.fields, SKey("200")) == Some(ResponseObject(schema, Str(d), media).value))
  {
    var entryValue := Obj([(SKey("description"), Str(d)), (SKey("schema"), schema)]);
    var e := Entry(IKey(200), entryValue, false);
    StatusDocstringEntry(httpMethod, docstring, coerce, load, dedentLines, entryValue);
    assert DocumentedOperation(view, httpMethod, base, docstring, coerce, load, dedentLines, media)
        == Operation(view, httpMethod, base, [e], media);
    var op' := PreparedStatusOverlaid(view, base, d, schema, media);
    OperationOfOverlaid(view, httpMethod, base, [e], media, op');
  }

  /** Both loops over the one status entry, on the prepared operation. */
  lemma PreparedStatusOverlaid(view: View, base: Fields, d: string, schema: Value, media: seq<string>) returns (op': Fields)
    requires d != [] && schema.Obj? && schema.fields != []
    requires Get(base, SKey("responses")).Some? && Get(base, SKey("responses")).value.Obj?
    ensures ResponseObject(schema, Str(d), media).Ok?
    ensures Overlaid(Prepared(view, base),
      [Entry(IKey(200), Obj([(SKey("description"), Str(d)), (SKey("schema"), schema)]), false)], media) == Ok(op')
    ensures Get(op', SKey("requestBody")) == Get(base, SKey("requestBody"))
    ensures Get(op', SKey("responses")).Some? && Get(op', SKey("responses")).value.Obj?
    ensures Get(Get(op', SKey("responses")).value.fields, SKey("200")) == Some(ResponseObject(schema, Str(d), media).value)
  {
    var op := Prepared(view, base);
    var e := Entry(IKey(200), Obj([(SKey("description"), Str(d)), (SKey("schema"), schema)]), false);
    OverlaidStatusOnly(op, e, media);
    var response := StatusEntryResponse(op, d, schema, media);
    var written := SetResponse(op, 200, response);
    op' := written.value;
    assert Get(op', SKey("requestBody")) == Get(op, SKey("requestBody"));
    assert Get(op, SKey("requestBody")) == Get(base, SKey("requestBody"));
    assert Get(Get(op', SKey("responses")).value.fields, SKey(IntToString(200))) == Some(response);
    OkKey();
  }

  /** `str(200)`. */
  lemma OkKey()
    ensures IntToString(200) == "200"
  {
    assert NatToString(2) == "2";
    assert NatToString(20) == "20";
  }

  /** The step for a described status entry with a truthy dict schema writes its response. */
  lemma StatusEntryResponse(op: Fields, d: string, schema: Value, media: seq<string>) returns (response: Value)
    requires d != [] && schema.Obj? && schema.fields != []
    requires Get(op, SKey("responses")).Some? && Get(op, SKey("responses")).value.Obj?
    ensures ResponseObject(schema, Str(d), media) == Ok(response)
    ensures SetResponse(op, 200, response).Ok?
    ensures StatusStep(op, Entry(IKey(200), Obj([(SKey("description"), Str(d)), (SKey("schema"), schema)]), false), media)
         == SetResponse(op, 200, response)
  {
    var fields := [(SKey("description"), Str(d)), (SKey("schema"), schema)];
    var e := Entry(IKey(200), Obj(fields), false);
    assert Get(fields, SKey("description")) == Some(Str(d));
    assert EntrySchema(fields) == schema by {
      assert Get(fields, SKey("schema")) == Some(schema);
    }
    assert MediaTypesContent(schema, media).Ok?;
    response := ResponseObject(schema, Str(d), media).value;
    assert StatusStep(op, e, media) == SetResponse(op, 200, response);
  }

  /** `_allows_filters`: a bulk view offers filters on GET only. */
  function AllowsFilters(view: View, httpMethod: string, filtersAllowed: bool): (r: bool)
    ensures r ==> filtersAllowed
    ensures HandlesMany(view) && Lower(httpMethod) != "get" ==> !r
    ensures !HandlesMany(view) || Lower(httpMethod) == "get" ==> r == filtersAllowed
  {
    if Lower(httpMethod) == "get" || !HandlesMany(view) then filtersAllowed else false
  }

  /** The serializer's map reshaped by `_get_request_body`, statement by statement. */
  method ReshapeRequestContent(httpMethod: string, content0: Fields, bulk: bool) returns (r: Result<Fields>)
    ensures r == RequestContent(httpMethod, content0, bulk)
  {
    var content := content0;
    if httpMethod == "PATCH" {
      content := Remove(content, SKey("required"));
    }
    var props := Index(Obj(content), "properties");
    if props.Err? {
      return Err(props.error);
    }
    if !props.value.Obj? {
      return Err(AttributeError);
    }
    var kept := DropFlaggedProperties(props.value.fields, "readOnly");
    if kept.Err? {
      return Err(kept.error);
    }
    content := Put(content, SKey("properties"), Obj(kept.value));
    if bulk {
      content := AsArray(content);
    }
    r := Ok(content);
  }

  class AdvanceAutoSchema {
    /** The view this schema documents. */
    const view: View
    /** `request_media_types`, set by `_get_request_body`. */
    var requestMediaTypes: seq<string>
    /** `response_media_types`, set by `_get_responses`. */
    var responseMediaTypes: seq<string>

    constructor(view: View)
      ensures this.view == view && requestMediaTypes == [] && responseMediaTypes == []
    {
      this.view := view;
      requestMediaTypes := [];
      responseMediaTypes := [];
    }

    /** `_get_operation_id`, by successive reassignment of `action` and `name`. */
    method GetOperationId(httpMethod: string, listView: bool) returns (r: Result<string>)
      ensures r == OperationId(view, httpMethod, listView)
    {
      var suffix := GetActionSuffix(httpMethod, listView);
      if suffix.Err? {
        return Err(suffix.error);
      }
      var first := FirstTag(view);
      var action := InPlaceAdd(if first.Some? then first.value else Null, suffix.value.0);
      if action.Err? {
        return Err(action.error);
      }
      if !action.value.Str? {
        // a list: `action.title()` fails in the view-class branch, `action + name` in the others
        return Err(if NamedByClass(view) then AttributeError else TypeError);
      }
      var name := GetResourceName(action.value.s);
      if suffix.value.1 && !EndsWith(name, "s") {
        name := name + "s";
      }
      r := Ok(action.value.s + name);
    }

    /** The first half of `_get_operation_id`: the action suffix and whether many objects are
        handled. */
    method GetActionSuffix(httpMethod: string, listView: bool) returns (r: Result<(string, bool)>)
      ensures r == ActionSuffix(view, httpMethod, listView)
    {
      var methodName := if view.action.Some? then view.action.value else Lower(httpMethod);
      if listView {
        r := Ok(("List", true));
      } else if HandlesMany(view) {
        r := Ok(("List" + Title(httpMethod), true));
      } else if methodName !in MethodMapping {
        r := Ok((Title(methodName), false));
      } else if Lower(httpMethod) !in MethodMapping {
        r := Err(KeyError);
      } else {
        r := Ok((Title(MethodMapping[Lower(httpMethod)]), false));
      }
    }

    /** The second half of `_get_operation_id`: the resource name, by successive reassignment. */
    method GetResourceName(action: string) returns (name: string)
      ensures name == ResourceName(view, action)
    {
      if view.operation.Some? && view.operation.value != [] {
        name := view.operation.value;
      } else if view.modelName.Some? {
        name := view.modelName.value;
      } else if view.serializerClassName.Some? {
        name := view.serializerClassName.value;
        if EndsWith(name, "Serializer") {
          name := DropLast(name, 10);
        }
      } else {
        name := view.className;
        if EndsWith(name, "APIView") {
          name := DropLast(name, 7);
        } else if EndsWith(name, "View") {
          name := DropLast(name, 4);
        }
        if EndsWith(name, Title(action)) {
          name := DropLast(name, |action|);
        }
      }
    }

    /** `get_operation`: the framework's operation and the overlay entries read from the
        docstring are inputs; the status entries use the response media types. */
    method GetOperation(httpMethod: string, base: Fields, info: seq<Entry>) returns (r: Result<Fields>)
      ensures r == Operation(view, httpMethod, base, info, responseMediaTypes)
    {
      var operation := Put(base, SKey("tags"), Arr(Tags(view)));
      if Deprecated(view) {
        operation := Put(operation, SKey("deprecated"), Bool(true));
      }
      var overlaid := ApplyOverlays(operation, info, responseMediaTypes);
      if overlaid.Err? {
        return overlaid;
      }
      operation := overlaid.value;
      if !HandlesMany(view) && httpMethod == "DELETE" {
        if SKey("requestBody") !in KeysOf(operation) {
          return Err(KeyError);
        }
        operation := Remove(operation, SKey("requestBody"));
      }
      r := Ok(operation);
    }

    /** `_get_request_body`: `parsers` is what `map_parsers` returns, `serializerMap` the
        serializer's map (None when the view has no serializer). Only a method that may carry
        a body records the parsers. */
    method GetRequestBody(httpMethod: string, parsers: seq<string>, serializerMap: Option<Fields>, listView: bool)
      returns (r: Result<Value>)
      modifies this
      ensures requestMediaTypes == if httpMethod in BodyMethods then parsers else old(requestMediaTypes)
      ensures responseMediaTypes == old(responseMediaTypes)
      ensures r == RequestBody(httpMethod, serializerMap, listView || HandlesMany(view), parsers)
    {
      if httpMethod !in BodyMethods {
        return Ok(Obj([]));
      }
      requestMediaTypes := parsers;
      if serializerMap.None? {
        return Ok(Obj([]));
      }
      var content := ReshapeRequestContent(httpMethod, serializerMap.value, listView || HandlesMany(view));
      if content.Err? {
        return Err(content.error);
      }
      var entry := if Get(content.value, SKey("properties")) != Some(Obj([]))
                   then Obj([(SKey("schema"), Obj(content.value))]) else Obj([]);
      r := Ok(Obj([(SKey("content"), Obj(ContentFields(entry, requestMediaTypes)))]));
    }

    /** `_get_responses`: `renderers` is what `map_renderers` returns. */
    method GetResponses(httpMethod: string, renderers: seq<string>, serializerMap: Option<Fields>, listView: bool,
                        paginate: Option<Value -> Value>, staticErrorCodes: Option<Value>) returns (r: Result<Value>)
      modifies this
      ensures responseMediaTypes == renderers && requestMediaTypes == old(requestMediaTypes)
      ensures r == OperationResponses(httpMethod, HandlesMany(view), view.allowedStatusCodes, serializerMap,
                                      listView, paginate, staticErrorCodes, renderers)
    {
      responseMediaTypes := renderers;
      r := BuildResponses(httpMethod, HandlesMany(view), view.allowedStatusCodes, serializerMap,
                          listView, paginate, staticErrorCodes, responseMediaTypes);
    }

    /** `_get_allowed_responses` for this view. */
    method GetAllowedResponses(httpMethod: string, schema: Value) returns (r: Result<Fields>)
      ensures r == AllowedResponses(httpMethod, HandlesMany(view), view.allowedStatusCodes, schema, responseMediaTypes)
    {
      r := BuildAllowedResponses(httpMethod, HandlesMany(view), view.allowedStatusCodes, schema, responseMediaTypes);
    }
  }
}
