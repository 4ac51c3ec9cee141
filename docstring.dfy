/** Extraction of the docstring overlay: `_yaml_safe_clean` and `_get_yaml_docstring`, which
    `drf_openapi3/schema.py` and `drf_openapi3/schemas/advanced.py` define with the same text. */
module Docstring {
  import opened Wrappers
  import opened PyValue
  import opened PyStr

  /** One `{key, value, append}` overlay entry: `append` asks to merge into the operation's
      existing collection instead of overwriting it. */
  datatype Entry = Entry(key: Key, value: Value, append: bool)

  /** What the YAML loader makes of the cleaned docstring: a tree (`Null` for an empty
      document), a scanner error, or any other YAML error (a reader error for a control
      character, a parser or composer error for a misplaced block, a constructor error for an
      unknown tag). */
  datatype YamlOutcome = Loaded(tree: Value) | ScannerError | OtherYamlError

  /** The keys an overlay may carry; every other key is dropped. */
  const ValidProperties: seq<Key> := [
    SKey("summary"), SKey("description"), SKey("tags"), SKey("responses"),
    IKey(200), IKey(201), IKey(202), IKey(204), IKey(400), IKey(401), IKey(403),
    IKey(404), IKey(500), IKey(502), IKey(503)
  ]

  /** `_yaml_safe_clean`: the printability filter never calls `isprintable`, so the bound method
      is always truthy and every character is kept; each tab becomes four spaces. */
  function YamlSafeClean(data: string): (r: string)
    ensures '\t' !in r
    ensures |r| >= |data|
  {
    if data == [] then []
    else (if data[0] == '\t' then "    " else [data[0]]) + YamlSafeClean(data[1..])
  }

  /** Cleaning works character by character: it distributes over concatenation ... */
  lemma {:induction false} YamlSafeCleanConcat(a: string, b: string)
    ensures YamlSafeClean(a + b) == YamlSafeClean(a) + YamlSafeClean(b)
  {
    if a == [] {
      assert a + b == b;
    } else {
      var c := if a[0] == '\t' then "    " else [a[0]];
      assert (a + b)[0] == a[0] && (a + b)[1..] == a[1..] + b;
      assert YamlSafeClean(a + b) == c + YamlSafeClean(a[1..] + b);
      YamlSafeCleanConcat(a[1..], b);
    }
  }

  /** ... maps a tab to four spaces and keeps every other character, printable or not ... */
  lemma YamlSafeCleanChar(c: char)
    ensures YamlSafeClean([c]) == if c == '\t' then "    " else [c]
  {
  }

  /** ... and therefore leaves tab-free text unchanged and is idempotent. */
  lemma {:induction false} YamlSafeCleanTabFree(data: string)
    requires '\t' !in data
    ensures YamlSafeClean(data) == data
  {
    if data != [] {
      YamlSafeCleanTabFree(data[1..]);
    }
  }

  lemma YamlSafeCleanIdempotent(data: string)
    ensures YamlSafeClean(YamlSafeClean(data)) == YamlSafeClean(data)
  {
    YamlSafeCleanTabFree(YamlSafeClean(data));
  }

  /** `many[k]` after `many.setdefault(k, False)` for every valid property. */
  function ManyFlag(many: map<Key, bool>, k: Key): bool {
    if k in many then many[k] else false
  }

  /** `"get" if method == "list" else method`, then the framework's coerce table. */
  function CoerceMethod(httpMethod: string, coerce: map<string, string>): string {
    var m := if httpMethod == "list" then "get" else httpMethod;
    if m in coerce then coerce[m] else m
  }

  /** `v.strip() if isinstance(v, str) else v`. */
  function StripIfStr(v: Value): Value {
    if v.Str? then Str(Strip(v.s)) else v
  }

  /** `"\n".join(line.strip() for line in lines)`. */
  function JoinStripped(lines: seq<string>): string {
    if lines == [] then []
    else if |lines| == 1 then Strip(lines[0])
    else Strip(lines[0]) + "\n" + JoinStripped(lines[1..])
  }

  /** The final comprehension: one entry per allowed key of the method's section, in order. */
  function SelectValid(f: Fields, many: map<Key, bool>): (r: seq<Entry>)
    ensures |r| <= |f|
    ensures forall e :: e in r ==> e.key in ValidProperties && e.append == ManyFlag(many, e.key)
  {
    if f == [] then []
    else
      var head := if f[0].0 in ValidProperties then [Entry(f[0].0, StripIfStr(f[0].1), ManyFlag(many, f[0].0))] else [];
      head + SelectValid(f[1..], many)
  }

  /** Each entry holds the section's value for its key, stripped when it is a string. */
  lemma {:induction false} SelectValidValues(f: Fields, many: map<Key, bool>)
    requires DistinctKeys(f)
    ensures forall e :: e in SelectValid(f, many) ==> Get(f, e.key).Some? && e.value == StripIfStr(Get(f, e.key).value)
  {
    if f != [] {
      DistinctCons(f[0], f[1..]);
      assert f == [f[0]] + f[1..];
      SelectValidValues(f[1..], many);
    }
  }

  /** The keys of a key list that the allow-list admits, in their order. */
  function AllowedKeys(ks: seq<Key>): seq<Key> {
    if ks == [] then []
    else (if ks[0] in ValidProperties then [ks[0]] else []) + AllowedKeys(ks[1..])
  }

  function EntryKeys(es: seq<Entry>): seq<Key> {
    if es == [] then [] else [es[0].key] + EntryKeys(es[1..])
  }

  /** The overlay lists the allowed keys of the section in the order the YAML gave them. */
  lemma {:induction false} SelectValidKeepsOrder(f: Fields, many: map<Key, bool>)
    ensures EntryKeys(SelectValid(f, many)) == AllowedKeys(KeysOf(f))
  {
    if f != [] {
      SelectValidKeepsOrder(f[1..], many);
      assert KeysOf(f) == [f[0].0] + KeysOf(f[1..]);
      var head := if f[0].0 in ValidProperties then [Entry(f[0].0, StripIfStr(f[0].1), ManyFlag(many, f[0].0))] else [];
      EntryKeysConcat(head, SelectValid(f[1..], many));
    }
  }

  lemma {:induction false} EntryKeysConcat(a: seq<Entry>, b: seq<Entry>)
    ensures EntryKeys(a + b) == EntryKeys(a) + EntryKeys(b)
  {
    if a == [] {
      assert a + b == b;
    } else {
      assert (a + b)[0] == a[0] && (a + b)[1..] == a[1..] + b;
      assert EntryKeys(a + b) == [a[0].key] + EntryKeys(a[1..] + b);
      EntryKeysConcat(a[1..], b);
    }
  }

  /** The method's section of a parsed tree: `result[method]` after the two rewrites. */
  function Section(m: string, yml: Value): Result<Value> {
    var present :- InStr(m, yml);
    var section :- if present then Index(yml, m) else Ok(yml);
    if section.Str? then Ok(Obj([(SKey("description"), section)])) else Ok(section)
  }

  /** `_get_yaml_docstring(method, docstring, **many)`: the YAML loader and
      `formatting.dedent(docstring).splitlines()` are parameters. */
  function YamlDocstring(
    httpMethod: string, docstring: string, many: map<Key, bool>, coerce: map<string, string>,
    load: string -> YamlOutcome, dedentLines: string -> seq<string>): Result<seq<Entry>>
  {
    var m := CoerceMethod(httpMethod, coerce);
    match load(YamlSafeClean(docstring))
    case ScannerError =>
      Ok([Entry(SKey("description"), Str(JoinStripped(dedentLines(docstring))), ManyFlag(many, SKey("description")))])
    case OtherYamlError => Err(YAMLError)
    case Loaded(yml) =>
      if yml.Null? then Ok([Entry(SKey("description"), Str(""), ManyFlag(many, SKey("description")))])
      else
        var section :- Section(m, yml);
        if section.Obj? then Ok(SelectValid(section.fields, many)) else Err(AttributeError)
  }

  /** Every overlay entry carries an allowed key and the append flag the caller gave for it
      (False when the caller gave none). */
  lemma OverlayKeysAllowed(
    httpMethod: string, docstring: string, many: map<Key, bool>, coerce: map<string, string>,
    load: string -> YamlOutcome, dedentLines: string -> seq<string>)
    ensures var r := YamlDocstring(httpMethod, docstring, many, coerce, load, dedentLines);
      r.Ok? ==> forall e :: e in r.value ==> e.key in ValidProperties && e.append == ManyFlag(many, e.key)
  {
  }

  /** "list" is documented as "get". */
  lemma ListReadsAsGet(
    docstring: string, many: map<Key, bool>, coerce: map<string, string>,
    load: string -> YamlOutcome, dedentLines: string -> seq<string>)
    ensures YamlDocstring("list", docstring, many, coerce, load, dedentLines)
         == YamlDocstring("get", docstring, many, coerce, load, dedentLines)
  {
  }

  /** An empty document yields exactly one empty description. */
  lemma EmptyDocumentFallback(
    httpMethod: string, docstring: string, many: map<Key, bool>, coerce: map<string, string>,
    load: string -> YamlOutcome, dedentLines: string -> seq<string>)
    requires load(YamlSafeClean(docstring)) == Loaded(Null)
    ensures YamlDocstring(httpMethod, docstring, many, coerce, load, dedentLines)
         == Ok([Entry(SKey("description"), Str(""), ManyFlag(many, SKey("description")))])
  {
  }

  /** Text the YAML scanner rejects becomes one description: the dedented docstring with every
      line stripped. Nothing is raised. */
  lemma ScannerErrorFallback(
    httpMethod: string, docstring: string, many: map<Key, bool>, coerce: map<string, string>,
    load: string -> YamlOutcome, dedentLines: string -> seq<string>)
    requires load(YamlSafeClean(docstring)) == ScannerError
    ensures var r := YamlDocstring(httpMethod, docstring, many, coerce, load, dedentLines);
      && r.Ok? && |r.value| == 1
      && r.value[0].key == SKey("description") && r.value[0].append == ManyFlag(many, SKey("description"))
      && r.value[0].value == Str(JoinStripped(dedentLines(docstring)))
  {
  }

  /** Only ScannerError is caught: any other YAML error escapes from the docstring reader. */
  lemma OtherYamlErrorEscapes(
    httpMethod: string, docstring: string, many: map<Key, bool>, coerce: map<string, string>,
    load: string -> YamlOutcome, dedentLines: string -> seq<string>)
    requires load(YamlSafeClean(docstring)) == OtherYamlError
    ensures YamlDocstring(httpMethod, docstring, many, coerce, load, dedentLines) == Err(YAMLError)
  {
  }

  /** The cleaner keeps every character but the tab, so a control character the YAML reader
      rejects reaches it. */
  lemma {:induction false} YamlSafeCleanKeeps(data: string, c: char)
    requires c != '\t' && c != ' '
    ensures c in YamlSafeClean(data) <==> c in data
  {
    if data != [] {
      YamlSafeCleanKeeps(data[1..], c);
      var head := if data[0] == '\t' then "    " else [data[0]];
      assert YamlSafeClean(data) == head + YamlSafeClean(data[1..]);
      assert data == [data[0]] + data[1..];
    }
  }

  /** A dict without the method's key is read as that method's section: the result is the one
      a document `{method: tree}` would give. */
  lemma MissingMethodWrapsTree(
    httpMethod: string, docstring: string, many: map<Key, bool>, coerce: map<string, string>,
    load: string -> YamlOutcome, load': string -> YamlOutcome, dedentLines: string -> seq<string>)
    requires var m := CoerceMethod(httpMethod, coerce);
      && load(YamlSafeClean(docstring)).Loaded? && load(YamlSafeClean(docstring)).tree.Obj?
      && SKey(m) !in KeysOf(load(YamlSafeClean(docstring)).tree.fields)
      && load'(YamlSafeClean(docstring)) == Loaded(Obj([(SKey(m), load(YamlSafeClean(docstring)).tree)]))
    ensures YamlDocstring(httpMethod, docstring, many, coerce, load, dedentLines)
         == YamlDocstring(httpMethod, docstring, many, coerce, load', dedentLines)
  {
    var m := CoerceMethod(httpMethod, coerce);
    var tree := load(YamlSafeClean(docstring)).tree;
    SectionOfWrapped(m, tree);
    YamlFromSection(httpMethod, docstring, many, coerce, load, dedentLines, tree);
    YamlFromSection(httpMethod, docstring, many, coerce, load', dedentLines, Obj([(SKey(m), tree)]));
  }

  /** Looking up a missing method in a dict reads the same section as looking it up in the dict
      wrapped under that method. */
  lemma SectionOfWrapped(m: string, tree: Value)
    requires tree.Obj? && SKey(m) !in KeysOf(tree.fields)
    ensures Section(m, tree) == Section(m, Obj([(SKey(m), tree)]))
  {
    assert KeysOf([(SKey(m), tree)]) == [SKey(m)];
  }

  /** A loaded document that is not null is read through its section. */
  lemma YamlFromSection(
    httpMethod: string, docstring: string, many: map<Key, bool>, coerce: map<string, string>,
    load: string -> YamlOutcome, dedentLines: string -> seq<string>, yml: Value)
    requires load(YamlSafeClean(docstring)) == Loaded(yml) && !yml.Null?
    ensures YamlDocstring(httpMethod, docstring, many, coerce, load, dedentLines)
         == (var section :- Section(CoerceMethod(httpMethod, coerce), yml);
             if section.Obj? then Ok(SelectValid(section.fields, many)) else Err(AttributeError))
  {
  }

  /** A bare string section becomes a description holding the stripped string. */
  lemma BareStringBecomesDescription(
    httpMethod: string, docstring: string, many: map<Key, bool>, coerce: map<string, string>,
    load: string -> YamlOutcome, dedentLines: string -> seq<string>, s: string)
    requires var m := CoerceMethod(httpMethod, coerce);
      load(YamlSafeClean(docstring)) == Loaded(Obj([(SKey(m), Str(s))]))
    ensures YamlDocstring(httpMethod, docstring, many, coerce, load, dedentLines)
         == Ok([Entry(SKey("description"), Str(Strip(s)), ManyFlag(many, SKey("description")))])
  {
    var m := CoerceMethod(httpMethod, coerce);
    var yml := Obj([(SKey(m), Str(s))]);
    assert KeysOf(yml.fields) == [SKey(m)];
    assert InStr(m, yml) == Ok(true);
    assert Index(yml, m) == Ok(Str(s));
    var f := [(SKey("description"), Str(s))];
    assert Section(m, yml) == Ok(Obj(f));
    SelectDescription(s, many);
  }

  /** A lone description survives the selection, stripped. */
  lemma SelectDescription(s: string, many: map<Key, bool>)
    ensures SelectValid([(SKey("description"), Str(s))], many)
         == [Entry(SKey("description"), Str(Strip(s)), ManyFlag(many, SKey("description")))]
  {
    var f := [(SKey("description"), Str(s))];
    assert SKey("description") in ValidProperties by {
      assert ValidProperties[1] == SKey("description");
    }
    assert SelectValid(f[1..], many) == [];
  }

  /** As written, a docstring that YAML reads as plain text fails with TypeError whenever the
      method name occurs anywhere inside it: `method in yml` is then a substring test and
      `yml[method]` indexes a string. */
  lemma PlainTextMentioningMethodFails(
    httpMethod: string, docstring: string, many: map<Key, bool>, coerce: map<string, string>,
    load: string -> YamlOutcome, dedentLines: string -> seq<string>, text: string)
    requires load(YamlSafeClean(docstring)) == Loaded(Str(text))
    requires Contains(text, CoerceMethod(httpMethod, coerce))
    ensures YamlDocstring(httpMethod, docstring, many, coerce, load, dedentLines) == Err(TypeError)
  {
  }

  /** "Return the target." mentions "get". */
  lemma TargetMentionsGet()
    ensures Contains("Return the target.", "get")
  {
    var text := "Return the target.";
    assert text[14..17] == "get" by {
      assert text[14] == 'g' && text[15] == 'e' && text[16] == 't';
    }
    assert OccursAt(text, "get", 14);
  }

  /** The same, on a concrete GET view documented "Return the target.". */
  lemma TargetDocstringCounterexample(load: string -> YamlOutcome, dedentLines: string -> seq<string>)
    requires load(YamlSafeClean("Return the target.")) == Loaded(Str("Return the target."))
    ensures YamlDocstring("get", "Return the target.", map[], map[], load, dedentLines) == Err(TypeError)
  {
    TargetMentionsGet();
    PlainTextMentioningMethodFails("get", "Return the target.", map[], map[], load, dedentLines, "Return the target.");
  }

  /** The section lookup as evidently intended: the method key is looked up only in a dict, and
      any other tree is the method's section. */
  function SectionIntended(m: string, yml: Value): Value {
    var section := if yml.Obj? && SKey(m) in KeysOf(yml.fields) then Get(yml.fields, SKey(m)).value else yml;
    if section.Str? then Obj([(SKey("description"), section)]) else section
  }

  /** `_get_yaml_docstring` with the intended section lookup. */
  function YamlDocstringIntended(
    httpMethod: string, docstring: string, many: map<Key, bool>, coerce: map<string, string>,
    load: string -> YamlOutcome, dedentLines: string -> seq<string>): Result<seq<Entry>>
  {
    var m := CoerceMethod(httpMethod, coerce);
    match load(YamlSafeClean(docstring))
    case ScannerError =>
      Ok([Entry(SKey("description"), Str(JoinStripped(dedentLines(docstring))), ManyFlag(many, SKey("description")))])
    case OtherYamlError => Err(YAMLError)
    case Loaded(yml) =>
      if yml.Null? then Ok([Entry(SKey("description"), Str(""), ManyFlag(many, SKey("description")))])
      else
        var section := SectionIntended(m, yml);
        if section.Obj? then Ok(SelectValid(section.fields, many)) else Err(AttributeError)
  }

  /** With the intended lookup every plain-text docstring documents the operation: it yields
      one description holding the stripped text, whatever words it contains. */
  lemma PlainTextBecomesDescription(
    httpMethod: string, docstring: string, many: map<Key, bool>, coerce: map<string, string>,
    load: string -> YamlOutcome, dedentLines: string -> seq<string>, text: string)
    requires load(YamlSafeClean(docstring)) == Loaded(Str(text))
    ensures YamlDocstringIntended(httpMethod, docstring, many, coerce, load, dedentLines)
         == Ok([Entry(SKey("description"), Str(Strip(text)), ManyFlag(many, SKey("description")))])
  {
    var m := CoerceMethod(httpMethod, coerce);
    assert SectionIntended(m, Str(text)) == Obj([(SKey("description"), Str(text))]);
    IntendedSelects(httpMethod, docstring, many, coerce, load, dedentLines, Str(text));
    SelectDescription(text, many);
  }

  /** A loaded document that is not null and whose section is a dict yields that section's
      valid entries. */
  lemma IntendedSelects(
    httpMethod: string, docstring: string, many: map<Key, bool>, coerce: map<string, string>,
    load: string -> YamlOutcome, dedentLines: string -> seq<string>, yml: Value)
    requires load(YamlSafeClean(docstring)) == Loaded(yml) && !yml.Null?
    requires SectionIntended(CoerceMethod(httpMethod, coerce), yml).Obj?
    ensures YamlDocstringIntended(httpMethod, docstring, many, coerce, load, dedentLines)
         == Ok(SelectValid(SectionIntended(CoerceMethod(httpMethod, coerce), yml).fields, many))
  {
  }

  /** The two agree on every document that is a dict, the shape the docstrings are meant to have. */
  lemma IntendedAgreesOnDicts(
    httpMethod: string, docstring: string, many: map<Key, bool>, coerce: map<string, string>,
    load: string -> YamlOutcome, dedentLines: string -> seq<string>)
    requires load(YamlSafeClean(docstring)).Loaded? ==> load(YamlSafeClean(docstring)).tree.Obj?
    ensures YamlDocstring(httpMethod, docstring, many, coerce, load, dedentLines)
         == YamlDocstringIntended(httpMethod, docstring, many, coerce, load, dedentLines)
  {
  }
}
