/** `get_schema` of the schema generators: the OpenAPI document with its paths sorted by path,
    a fixed API-key security scheme and the server list. */
module Generators {
  import opened Wrappers
  import opened PyValue
  import opened PyStr
  import opened Servers

  /** The `(path, item)` pairs of the dict `get_paths` returns, in its order. */
  type PathItems = seq<(string, Value)>

  /** Ascending by path; equal paths may follow each other. */
  predicate SortedByPath(s: PathItems) {
    forall i, j :: 0 <= i < j < |s| ==> !Less(s[j].0, s[i].0)
  }

  /** `x` placed after every pair whose path does not sort after its own. */
  function Insert(x: (string, Value), s: PathItems): (r: PathItems)
    ensures multiset(r) == multiset(s) + multiset{x}
  {
    if s == [] then [x]
    else if Less(x.0, s[0].0) then [x] + s
    else
      assert s == [s[0]] + s[1..];
      [s[0]] + Insert(x, s[1..])
  }

  lemma {:induction false} InsertSorted(x: (string, Value), s: PathItems)
    requires SortedByPath(s)
    ensures SortedByPath(Insert(x, s))
  {
    if s == [] {
    } else if Less(x.0, s[0].0) {
      var r := [x] + s;
      forall i, j | 0 <= i < j < |r| ensures !Less(r[j].0, r[i].0) {
        if i == 0 {
          if Less(s[j - 1].0, x.0) {
            LessTransitive(s[j - 1].0, x.0, s[0].0);
            if j - 1 == 0 {
              LessIrreflexive(s[0].0);
            }
          }
        }
      }
    } else {
      var tail := s[1..];
      InsertSorted(x, tail);
      var t := Insert(x, tail);
      var r := [s[0]] + t;
      forall i, j | 0 <= i < j < |r| ensures !Less(r[j].0, r[i].0) {
        if i == 0 {
          assert r[j] in multiset(t);
          assert r[j] == x || r[j] in tail;
        }
      }
    }
  }

  /** `sorted(paths.items(), key=lambda t: t[0])`: a stable insertion sort on the path. */
  function SortByPath(s: PathItems): (r: PathItems)
    ensures multiset(r) == multiset(s)
  {
    if s == [] then []
    else
      assert s == s[..|s| - 1] + [s[|s| - 1]];
      Insert(s[|s| - 1], SortByPath(s[..|s| - 1]))
  }

  /** The sorted pairs are ascending by path. */
  lemma {:induction false} SortByPathSorted(s: PathItems)
    ensures SortedByPath(SortByPath(s))
  {
    if s != [] {
      SortByPathSorted(s[..|s| - 1]);
      InsertSorted(s[|s| - 1], SortByPath(s[..|s| - 1]));
    }
  }

  /** The paths of a dict are distinct, so the sorted paths strictly ascend. */
  lemma SortByPathStrict(s: PathItems)
    requires forall i, j :: 0 <= i < j < |s| ==> s[i].0 != s[j].0
    ensures var r := SortByPath(s);
      forall i, j :: 0 <= i < j < |r| ==> Less(r[i].0, r[j].0)
  {
    var r := SortByPath(s);
    SortByPathSorted(s);
    forall i, j | 0 <= i < j < |r| ensures Less(r[i].0, r[j].0) {
      if r[i].0 == r[j].0 {
        SamePathSamePair(s, r, i, j);
        assert false;
      }
      LessTotal(r[i].0, r[j].0);
    }
  }

  /** A permutation of pairs with distinct paths holds no path twice. */
  lemma SamePathSamePair(s: PathItems, r: PathItems, i: nat, j: nat)
    requires forall a, b :: 0 <= a < b < |s| ==> s[a].0 != s[b].0
    requires multiset(r) == multiset(s)
    requires i < j < |r|
    ensures r[i].0 != r[j].0
  {
    if r[i].0 == r[j].0 {
      assert r[i] in multiset(s) && r[j] in multiset(s);
      var a :| 0 <= a < |s| && s[a] == r[i];
      var b :| 0 <= b < |s| && s[b] == r[j];
      assert a == b;
      TwiceCounted(r, i, j);
      DistinctOnce(s, a);
      assert false;
    }
  }

  /** An element at two positions is counted at least twice. */
  lemma TwiceCounted(r: PathItems, i: nat, j: nat)
    requires i < j < |r| && r[i] == r[j]
    ensures multiset(r)[r[i]] >= 2
  {
    assert r == r[..j] + [r[j]] + r[j + 1..];
    assert r[i] in r[..j] by { assert r[..j][i] == r[i]; }
  }

  /** A pair with a path of its own occurs once. */
  lemma DistinctOnce(s: PathItems, i: nat)
    requires forall a, b :: 0 <= a < b < |s| ==> s[a].0 != s[b].0
    requires i < |s|
    ensures multiset(s)[s[i]] == 1
  {
    var x := s[i];
    var before, after := s[..i], s[i + 1..];
    assert s == before + [x] + after;
    assert x !in before by {
      forall a | 0 <= a < i ensures before[a] != x { assert s[a].0 != s[i].0; }
    }
    assert x !in after by {
      forall b | 0 <= b < |after| ensures after[b] != x { assert after[b] == s[i + 1 + b]; }
    }
  }

  /** The sorted pairs as a dict. */
  function PathFields(s: PathItems): (r: Fields)
    ensures |r| == |s|
    ensures forall i :: 0 <= i < |s| ==> r[i] == (SKey(s[i].0), s[i].1)
  {
    if s == [] then [] else [(SKey(s[0].0), s[0].1)] + PathFields(s[1..])
  }

  /** The `ApiKeyAuth` scheme: an API key in the `Authorization` header; only the newer package
      describes it. */
  function ApiKeyAuth(withDescription: bool): Value {
    Obj([(SKey("type"), Str("apiKey")), (SKey("in"), Str("header")), (SKey("name"), Str("Authorization"))]
        + if withDescription then [(SKey("description"), Str("Enter your bearer token in the format **Token &lt;token&gt;**"))] else [])
  }

  /** `{"ApiKeyAuth": {...}}`. */
  function SecuritySchemes(withDescription: bool): Value {
    Obj([(SKey("ApiKeyAuth"), ApiKeyAuth(withDescription))])
  }

  /** `[{"ApiKeyAuth": []}]`. */
  function SecurityRequirement(): Value {
    Arr([Obj([(SKey("ApiKeyAuth"), Arr([]))])])
  }

  /** What `get_servers` returned, as a document value (None is null). */
  function ServersValue(servers: Option<seq<Value>>): Value {
    if servers.None? then Null else Arr(servers.value)
  }

  /** The document `get_schema` builds once `get_info()`, the paths and the servers are known. */
  function Document(paths: PathItems, info: Value, servers: Option<seq<Value>>, withDescription: bool): Value {
    Obj([
      (SKey("openapi"), Str("3.0.2")),
      (SKey("info"), info),
      (SKey("components"), Obj([(SKey("securitySchemes"), SecuritySchemes(withDescription))])),
      (SKey("security"), SecurityRequirement()),
      (SKey("paths"), Obj(PathFields(SortByPath(paths)))),
      (SKey("servers"), ServersValue(servers))])
  }

  /** The document is OpenAPI 3.0.2 with the one `ApiKeyAuth` scheme, required by `security`,
      and lists the servers it was given. */
  lemma DocumentShape(paths: PathItems, info: Value, servers: Option<seq<Value>>, withDescription: bool)
    ensures var d := Document(paths, info, servers, withDescription).fields;
      && DistinctKeys(d)
      && Get(d, SKey("openapi")) == Some(Str("3.0.2"))
      && Get(d, SKey("info")) == Some(info)
      && Get(d, SKey("security")) == Some(Arr([Obj([(SKey("ApiKeyAuth"), Arr([]))])]))
      && Get(d, SKey("servers")) == Some(if servers.None? then Null else Arr(servers.value))
      && Get(d, SKey("components")) == Some(Obj([(SKey("securitySchemes"), Obj([(SKey("ApiKeyAuth"), ApiKeyAuth(withDescription))]))]))
  {
    var d := Document(paths, info, servers, withDescription).fields;
    DocumentDistinct(paths, info, servers, withDescription);
    GetStored(d, SKey("openapi"), d[0].1);
    GetStored(d, SKey("info"), d[1].1);
    GetStored(d, SKey("components"), d[2].1);
    GetStored(d, SKey("security"), d[3].1);
    GetStored(d, SKey("servers"), d[5].1);
  }

  /** The document's six keys differ. */
  lemma DocumentDistinct(paths: PathItems, info: Value, servers: Option<seq<Value>>, withDescription: bool)
    ensures DistinctKeys(Document(paths, info, servers, withDescription).fields)
  {
    var d := Document(paths, info, servers, withDescription).fields;
    TopKeysDistinct(d[0].1, d[1].1, d[2].1, d[3].1, d[4].1, d[5].1);
  }

  lemma TopKeysDistinct(openapi: Value, info: Value, components: Value, security: Value, paths: Value, servers: Value)
    ensures DistinctKeys([(SKey("openapi"), openapi), (SKey("info"), info), (SKey("components"), components),
                          (SKey("security"), security), (SKey("paths"), paths), (SKey("servers"), servers)])
  {
    var d := [(SKey("openapi"), openapi), (SKey("info"), info), (SKey("components"), components),
              (SKey("security"), security), (SKey("paths"), paths), (SKey("servers"), servers)];
    forall i, j | 0 <= i < j < |d| ensures d[i].0 != d[j].0 {
      assert d[i].0.s != d[j].0.s by { assert |d[i].0.s| != |d[j].0.s| || d[i].0.s[0] != d[j].0.s[0]; }
    }
  }

  /** The scheme carries a description exactly in the newer package's document. */
  lemma SchemeDescription(withDescription: bool)
    ensures var s := ApiKeyAuth(withDescription);
      && s.Obj? && Get(s.fields, SKey("type")) == Some(Str("apiKey"))
      && Get(s.fields, SKey("in")) == Some(Str("header")) && Get(s.fields, SKey("name")) == Some(Str("Authorization"))
      && (Get(s.fields, SKey("description")).Some? <==> withDescription)
  {
    var f := ApiKeyAuth(withDescription).fields;
    SchemeKeys(withDescription);
    GetStored(f, SKey("type"), Str("apiKey"));
    GetStored(f, SKey("in"), Str("header"));
    GetStored(f, SKey("name"), Str("Authorization"));
  }

  /** The scheme's keys, each once. */
  lemma SchemeKeys(withDescription: bool)
    ensures var f := ApiKeyAuth(withDescription).fields;
      && DistinctKeys(f) && f[..3] == [(SKey("type"), Str("apiKey")), (SKey("in"), Str("header")), (SKey("name"), Str("Authorization"))]
      && (SKey("description") in KeysOf(f) <==> withDescription)
  {
    var f := ApiKeyAuth(withDescription).fields;
    var ks := KeysOf(f);
    if withDescription {
      assert ks == [SKey("type"), SKey("in"), SKey("name"), SKey("description")];
    } else {
      assert ks == [SKey("type"), SKey("in"), SKey("name")];
    }
    forall i, j | 0 <= i < j < |f| ensures f[i].0 != f[j].0 {
      assert ks[i].s != ks[j].s by { assert |ks[i].s| != |ks[j].s| || ks[i].s[0] != ks[j].s[0]; }
    }
  }

  /** The document's paths are the given paths, each with its item, ascending by path. */
  lemma DocumentPathsSorted(paths: PathItems, info: Value, servers: Option<seq<Value>>, withDescription: bool)
    ensures var d := Document(paths, info, servers, withDescription).fields;
      && Get(d, SKey("paths")) == Some(Obj(PathFields(SortByPath(paths))))
      && SortedByPath(SortByPath(paths))
      && multiset(SortByPath(paths)) == multiset(paths)
  {
    var d := Document(paths, info, servers, withDescription).fields;
    DocumentShape(paths, info, servers, withDescription);
    GetStored(d, SKey("paths"), d[4].1);
    SortByPathSorted(paths);
  }

  /** `get_schema` of `drf_openapi3/schema_generator.py`: None without paths, else the document
      with the described scheme; `get_servers` runs last and may raise. */
  method GetSchema3(settings: DjangoSettings, paths: PathItems, info: Value, request: Option<Request>)
    returns (r: Result<Option<Value>>)
    modifies settings
    ensures paths == [] ==> r == Ok(None) && settings.apiServers == old(settings.apiServers)
    ensures paths != [] ==> settings.apiServers == ServersAfter(old(settings.apiServers), request)
    ensures paths != [] ==> r == match ServersResult(old(settings.apiServers), request)
                                 case Err(e) => Err(e)
                                 case Ok(s) => Ok(Some(Document(paths, info, s, true)))
  {
    if paths == [] {
      return Ok(None);
    }
    var servers := GetServers(settings, request);
    if servers.Err? {
      return Err(servers.error);
    }
    r := Ok(Some(Document(paths, info, servers.value, true)));
  }

  /** `get_schema` of `drf_openapi/schema_generator.py`: the same document without the scheme's
      description, with the older server list. */
  method GetSchemaLegacy(settings: DjangoSettings, paths: PathItems, info: Value, request: Option<Request>)
    returns (r: Result<Option<Value>>)
    modifies settings
    ensures paths == [] ==> r == Ok(None) && settings.apiServers == old(settings.apiServers)
    ensures paths != [] ==> settings.apiServers == ServersAfter(old(settings.apiServers), request)
    ensures paths != [] ==> r == match LegacyServersResult(old(settings.apiServers), request)
                                 case Err(e) => Err(e)
                                 case Ok(s) => Ok(Some(Document(paths, info, s, false)))
  {
    if paths == [] {
      return Ok(None);
    }
    var servers := GetServersLegacy(settings, request);
    if servers.Err? {
      return Err(servers.error);
    }
    r := Ok(Some(Document(paths, info, servers.value, false)));
  }

  /** The edits `AdvancedSchemaGenerator.get_schema` makes to the framework's document before
      the servers: the scheme goes under `components`, the requirement under `security`. A
      missing document (None) or a `components` that is no dict raises TypeError, a document
      without `components` KeyError. */
  function Secured(base: Value): (r: Result<Fields>)
    ensures r.Ok? <==> base.Obj? && Get(base.fields, SKey("components")).Some?
                       && Get(base.fields, SKey("components")).value.Obj?
    ensures r.Ok? ==> Get(r.value, SKey("security")) == Some(SecurityRequirement())
    ensures r.Ok? ==> forall k :: k != SKey("components") && k != SKey("security") ==> Get(r.value, k) == Get(base.fields, k)
    ensures r.Ok? ==>
      var before := Get(base.fields, SKey("components")).value.fields;
      && Get(r.value, SKey("components")).Some? && Get(r.value, SKey("components")).value.Obj?
      && var after := Get(r.value, SKey("components")).value.fields;
      && Get(after, SKey("securitySchemes")) == Some(SecuritySchemes(true))
      && forall k :: k != SKey("securitySchemes") ==> Get(after, k) == Get(before, k)
  {
    if !base.Obj? then Err(TypeError)
    else
      var components :- Index(base, "components");
      if !components.Obj? then Err(TypeError)
      else
        var c := Put(components.fields, SKey("securitySchemes"), SecuritySchemes(true));
        var f := Put(base.fields, SKey("components"), Obj(c));
        Ok(Put(f, SKey("security"), SecurityRequirement()))
  }

  /** `AdvancedSchemaGenerator.get_schema`, with the framework's document as input. */
  method GetSchemaAdvanced(settings: DjangoSettings, base: Value, request: Option<Request>) returns (r: Result<Value>)
    modifies settings
    ensures Secured(base).Err? ==> r == Err(Secured(base).error) && settings.apiServers == old(settings.apiServers)
    ensures Secured(base).Ok? ==> settings.apiServers == ServersAfter(old(settings.apiServers), request)
    ensures Secured(base).Ok? ==> r == match ServersResult(old(settings.apiServers), request)
                                       case Err(e) => Err(e)
                                       case Ok(s) => Ok(Obj(Put(Secured(base).value, SKey("servers"), ServersValue(s))))
  {
    if !base.Obj? {
      return Err(TypeError);
    }
    var components := Index(base, "components");
    if components.Err? {
      return Err(components.error);
    }
    if !components.value.Obj? {
      return Err(TypeError);
    }
    var schema := Put(base.fields, SKey("components"),
                      Obj(Put(components.value.fields, SKey("securitySchemes"), SecuritySchemes(true))));
    schema := Put(schema, SKey("security"), SecurityRequirement());
    var servers := GetServers(settings, request);
    if servers.Err? {
      return Err(servers.error);
    }
    r := Ok(Obj(Put(schema, SKey("servers"), ServersValue(servers.value))));
  }
}
