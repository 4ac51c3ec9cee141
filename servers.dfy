/** `get_servers` of the schema generators: the configured `API_SERVERS` list is cleaned in place
    and projected to `{url, description}` entries; the older generator also lists the local server. */
module Servers {
  import opened Wrappers
  import opened PyValue
  import opened PyList

  /** The Django settings object, as far as `get_servers` reads and changes it. An absent
      `API_SERVERS` setting behaves as the empty list. */
  class DjangoSettings {
    var apiServers: seq<Value>

    constructor(apiServers: seq<Value>)
      ensures this.apiServers == apiServers
    {
      this.apiServers := apiServers;
    }
  }

  /** The parts of `urlparse(request.build_absolute_uri())` that name the local server. */
  datatype Request = Request(scheme: string, netloc: string)

  /** The cleaning loop as Python runs it: `for server in servers` walks the list by index while
      `servers.remove(server)` deletes the first equal element, so the element after each removed
      one is never looked at. */
  function RemoveNonDicts(live: seq<Value>, i: nat): (r: seq<Value>)
    ensures |r| <= |live|
    decreases |live| - i
  {
    if i >= |live| then live
    else if live[i].Obj? then RemoveNonDicts(live, i + 1)
    else RemoveNonDicts(RemoveFirst(live, live[i]), i + 1)
  }

  /** The list the cleaning loop leaves behind. */
  function Cleaned(servers: seq<Value>): seq<Value> {
    RemoveNonDicts(servers, 0)
  }

  /** The cleaning loop, statement by statement, on the settings' own list. */
  method RemoveInvalidServers(settings: DjangoSettings)
    modifies settings
    ensures settings.apiServers == Cleaned(old(settings.apiServers))
  {
    var i := 0;
    while i < |settings.apiServers|
      invariant RemoveNonDicts(settings.apiServers, i) == Cleaned(old(settings.apiServers))
      decreases |settings.apiServers| - i
    {
      var server := settings.apiServers[i];
      if !server.Obj? {
        settings.apiServers := RemoveFirst(settings.apiServers, server);
      }
      i := i + 1;
    }
  }

  /** The dict entries of a list, in order: what the cleaning loop is meant to keep. */
  function DictsOnly(servers: seq<Value>): (r: seq<Value>)
    ensures |r| <= |servers|
  {
    if servers == [] then []
    else DictsOnly(servers[..|servers| - 1]) + (if servers[|servers| - 1].Obj? then [servers[|servers| - 1]] else [])
  }

  /** The filter keeps exactly the dicts. */
  lemma {:induction false} DictsOnlyMembers(servers: seq<Value>)
    ensures forall x :: x in DictsOnly(servers) <==> x in servers && x.Obj?
  {
    if servers != [] {
      var n := |servers| - 1;
      DictsOnlyMembers(servers[..n]);
      assert servers == servers[..n] + [servers[n]];
    }
  }

  /** No two entries that are not dicts stand next to each other. */
  predicate NoAdjacentNonDicts(servers: seq<Value>) {
    forall i :: 0 <= i < |servers| - 1 ==> servers[i].Obj? || servers[i + 1].Obj?
  }

  /** `remove` of an element absent from the part before it. */
  lemma RemoveFirstAfter(a: seq<Value>, x: Value, b: seq<Value>)
    requires x !in a
    ensures RemoveFirst(a + [x] + b, x) == a + b
  {
    var live := a + [x] + b;
    assert live[|a|] == x;
    assert FirstIndex(live, x) == |a|;
    assert live[..|a|] == a && live[|a| + 1..] == b;
  }

  lemma DictsOnlyNext(servers: seq<Value>, k: nat)
    requires k < |servers|
    ensures DictsOnly(servers[..k + 1]) == DictsOnly(servers[..k]) + (if servers[k].Obj? then [servers[k]] else [])
  {
    assert servers[..k + 1][..k] == servers[..k];
  }

  lemma {:induction false} CleanedFrom(servers: seq<Value>, k: nat)
    requires NoAdjacentNonDicts(servers) && k <= |servers|
    ensures RemoveNonDicts(DictsOnly(servers[..k]) + servers[k..], |DictsOnly(servers[..k])|) == DictsOnly(servers)
    decreases |servers| - k, 2
  {
    if k == |servers| {
      assert servers[..k] == servers;
    } else if servers[k].Obj? {
      CleanedPastDict(servers, k);
    } else {
      CleanedPastNonDict(servers, k);
    }
  }

  lemma {:induction false} CleanedPastDict(servers: seq<Value>, k: nat)
    requires NoAdjacentNonDicts(servers) && k < |servers| && servers[k].Obj?
    ensures RemoveNonDicts(DictsOnly(servers[..k]) + servers[k..], |DictsOnly(servers[..k])|) == DictsOnly(servers)
    decreases |servers| - k, 0
  {
    var a := DictsOnly(servers[..k]);
    var live := a + servers[k..];
    DictsOnlyNext(servers, k);
    assert live == DictsOnly(servers[..k + 1]) + servers[k + 1..];
    assert live[|a|] == servers[k];
    RemoveNonDictsPastDict(live, |a|);
    CleanedFrom(servers, k + 1);
  }

  /** The cleaning loop steps over a dict. */
  lemma RemoveNonDictsPastDict(live: seq<Value>, i: nat)
    requires i < |live| && live[i].Obj?
    ensures RemoveNonDicts(live, i) == RemoveNonDicts(live, i + 1)
  {
  }

  lemma {:induction false} CleanedPastNonDict(servers: seq<Value>, k: nat)
    requires NoAdjacentNonDicts(servers) && k < |servers| && !servers[k].Obj?
    ensures RemoveNonDicts(DictsOnly(servers[..k]) + servers[k..], |DictsOnly(servers[..k])|) == DictsOnly(servers)
    decreases |servers| - k, 1
  {
    SkipRemoved(servers, k);
    if k + 1 == |servers| {
      CleanedAtEnd(servers, k);
    } else {
      CleanedPastNeighbour(servers, k);
    }
  }

  lemma {:induction false} CleanedPastNeighbour(servers: seq<Value>, k: nat)
    requires NoAdjacentNonDicts(servers) && k + 1 < |servers| && !servers[k].Obj?
    ensures var a := DictsOnly(servers[..k]);
      RemoveNonDicts(a + servers[k + 1..], |a| + 1) == DictsOnly(servers)
    decreases |servers| - k, 0
  {
    var a := DictsOnly(servers[..k]);
    var a2 := DictsOnly(servers[..k + 2]);
    var live := a + servers[k + 1..];
    assert servers[k + 1].Obj?;
    DictsOnlyNext(servers, k);
    DictsOnlyNext(servers, k + 1);
    assert a2 == a + [servers[k + 1]];
    assert servers[k + 1..] == [servers[k + 1]] + servers[k + 2..];
    assert live == a2 + servers[k + 2..];
    CleanedFrom(servers, k + 2);
  }

  lemma CleanedAtEnd(servers: seq<Value>, k: nat)
    requires k + 1 == |servers| && !servers[k].Obj?
    ensures var a := DictsOnly(servers[..k]);
      RemoveNonDicts(a + servers[k + 1..], |a| + 1) == DictsOnly(servers)
  {
    DictsOnlyNext(servers, k);
    assert servers[..k + 1] == servers;
  }

  /** The loop removes the entry at the cursor and moves past the one that slid into its place. */
  lemma SkipRemoved(servers: seq<Value>, k: nat)
    requires k < |servers| && !servers[k].Obj?
    ensures var a := DictsOnly(servers[..k]);
      RemoveNonDicts(a + servers[k..], |a|) == RemoveNonDicts(a + servers[k + 1..], |a| + 1)
  {
    var a := DictsOnly(servers[..k]);
    var live := a + servers[k..];
    var x := servers[k];
    assert live == a + [x] + servers[k + 1..];
    assert live[|a|] == x;
    DictsOnlyMembers(servers[..k]);
    RemoveFirstAfter(a, x, servers[k + 1..]);
  }

  /** When no two invalid entries are neighbours, the loop does keep exactly the dicts. */
  lemma CleanedIsDictsWhenSpread(servers: seq<Value>)
    requires NoAdjacentNonDicts(servers)
    ensures Cleaned(servers) == DictsOnly(servers)
  {
    CleanedFrom(servers, 0);
    assert servers[..0] == [] && DictsOnly(servers[..0]) == [];
    assert [] + servers[0..] == servers;
  }

  /** Two neighbouring invalid entries: the second one survives the loop. */
  lemma AdjacentInvalidEntrySurvives()
    ensures Cleaned([Str("a"), Str("b")]) == [Str("b")]
    ensures DictsOnly([Str("a"), Str("b")]) == []
  {
    assert FirstIndex([Str("a"), Str("b")], Str("a")) == 0;
    assert RemoveFirst([Str("a"), Str("b")], Str("a")) == [Str("b")];
  }

  /** `{"url": s["url"], "description": s["description"]}`. */
  function Projection(s: Value): Result<Value> {
    var url :- Index(s, "url");
    var description :- Index(s, "description");
    Ok(Obj([(SKey("url"), url), (SKey("description"), description)]))
  }

  /** What one entry contributes to the comprehension over the cleaned list: it is kept when
      `"url" in s and "description" in s`. For a string those are substring tests, and indexing a
      string (or list) with a key raises TypeError, as does any `in` test on a number, boolean or
      None. */
  function Contribution(s: Value): (r: Result<Option<Value>>)
    ensures r.Ok? && r.value.Some? ==> s.Obj? && Projection(s) == Ok(r.value.value)
    ensures s.Obj? ==> r.Ok?
    ensures s.Obj? && SKey("url") in KeysOf(s.fields) && SKey("description") in KeysOf(s.fields) ==>
      Projection(s).Ok? && r == Ok(Some(Projection(s).value))
  {
    var hasUrl :- InStr("url", s);
    if !hasUrl || InStr("description", s) != Ok(true) then Ok(None)
    else
      var entry :- Projection(s);
      Ok(Some(entry))
  }

  /** The comprehension over the cleaned list, in order. */
  function Project(servers: seq<Value>): (r: Result<seq<Value>>)
    ensures r.Ok? ==> |r.value| <= |servers|
    ensures r.Ok? ==> forall x :: x in r.value ==> x.Obj? && KeysOf(x.fields) == [SKey("url"), SKey("description")]
    ensures (forall x :: x in servers ==> x.Obj?) ==> r.Ok?
  {
    if servers == [] then Ok([])
    else
      var init :- Project(servers[..|servers| - 1]);
      var entry :- Contribution(servers[|servers| - 1]);
      Ok(init + (if entry.Some? then [entry.value] else []))
  }

  lemma ProjectLast(servers: seq<Value>)
    requires servers != [] && Project(servers).Ok?
    ensures var n := |servers| - 1;
      && Project(servers[..n]).Ok? && Contribution(servers[n]).Ok?
      && var entry := Contribution(servers[n]).value;
      && Project(servers).value == Project(servers[..n]).value + (if entry.Some? then [entry.value] else [])
  {
  }

  /** What the comprehension lists for a prefix it still lists for the whole list. */
  lemma ProjectExtends(servers: seq<Value>)
    requires servers != [] && Project(servers).Ok?
    ensures Project(servers[..|servers| - 1]).Ok?
    ensures forall v :: v in Project(servers[..|servers| - 1]).value ==> v in Project(servers).value
  {
    ProjectLast(servers);
  }

  /** The last entry's contribution ends the list. */
  lemma ProjectEndsWithLast(servers: seq<Value>)
    requires servers != [] && Project(servers).Ok?
    requires Contribution(servers[|servers| - 1]).Ok? && Contribution(servers[|servers| - 1]).value.Some?
    ensures Contribution(servers[|servers| - 1]).value.value in Project(servers).value
  {
    ProjectLast(servers);
  }

  /** A dict the comprehension lists: it has both `url` and `description`. */
  predicate Describes(s: Value) {
    s.Obj? && SKey("url") in KeysOf(s.fields) && SKey("description") in KeysOf(s.fields)
  }

  /** What `get_servers` is meant to list: the `{url, description}` projection of every configured
      dict that has both keys, in the configured order. */
  function Described(servers: seq<Value>): (r: seq<Value>)
    ensures |r| <= |servers|
    ensures forall x :: x in r ==> x.Obj? && KeysOf(x.fields) == [SKey("url"), SKey("description")]
  {
    if servers == [] then []
    else
      var last := servers[|servers| - 1];
      Described(servers[..|servers| - 1]) + (if Describes(last) then [Projection(last).value] else [])
  }

  /** Wherever the comprehension does not raise, it lists exactly the described dicts, in order. */
  lemma {:induction false} ProjectIsDescribed(servers: seq<Value>)
    requires Project(servers).Ok?
    ensures Project(servers).value == Described(servers)
    decreases |servers|
  {
    if servers != [] {
      var n := |servers| - 1;
      ProjectLast(servers);
      ProjectIsDescribed(servers[..n]);
      if Describes(servers[n]) {
        assert Contribution(servers[n]) == Ok(Some(Projection(servers[n]).value));
      } else {
        assert Contribution(servers[n]).value.None?;
      }
    }
  }

  /** Every described dict of the list appears projected in `Described`. */
  lemma {:induction false} DescribedHas(servers: seq<Value>, j: nat)
    requires j < |servers| && Describes(servers[j])
    ensures Projection(servers[j]).Ok? && Projection(servers[j]).value in Described(servers)
    decreases |servers|
  {
    var n := |servers| - 1;
    var init := Described(servers[..n]);
    assert Contribution(servers[j]).Ok?;
    if j < n {
      assert servers[..n][j] == servers[j];
      DescribedHas(servers[..n], j);
      assert init <= Described(servers);
    } else {
      assert Described(servers) == init + [Projection(servers[j]).value];
    }
  }

  /** A dict with both keys, anywhere in a list the comprehension accepts, appears projected in
      the result. */
  lemma ProjectKeepsDescribed(servers: seq<Value>, j: nat)
    requires Project(servers).Ok?
    requires j < |servers| && Describes(servers[j])
    ensures Projection(servers[j]).Ok? && Projection(servers[j]).value in Project(servers).value
  {
    ProjectIsDescribed(servers);
    DescribedHas(servers, j);
  }

  /** Filtering the dicts distributes over concatenation. */
  lemma {:induction false} DictsOnlyConcat(a: seq<Value>, b: seq<Value>)
    ensures DictsOnly(a + b) == DictsOnly(a) + DictsOnly(b)
    decreases |b|
  {
    if b == [] {
      assert a + b == a;
    } else {
      var n := |b| - 1;
      assert (a + b)[..|a + b| - 1] == a + b[..n] && (a + b)[|a + b| - 1] == b[n];
      DictsOnlyConcat(a, b[..n]);
    }
  }

  /** Removing an entry that is not a dict leaves the dicts as they were. */
  lemma DictsOnlyRemoveNonDict(live: seq<Value>, x: Value)
    requires !x.Obj?
    ensures DictsOnly(RemoveFirst(live, x)) == DictsOnly(live)
  {
    if x in live {
      var k := FirstIndex(live, x);
      assert RemoveFirst(live, x) == live[..k] + live[k + 1..];
      assert live == live[..k] + [x] + live[k + 1..];
      DictsOnlySkips(live[..k], x, live[k + 1..]);
    }
  }

  /** An entry that is not a dict contributes nothing to the filter. */
  lemma DictsOnlySkips(a: seq<Value>, x: Value, b: seq<Value>)
    requires !x.Obj?
    ensures DictsOnly(a + [x] + b) == DictsOnly(a + b)
  {
    DictsOnlyConcat(a + [x], b);
    DictsOnlyConcat(a, [x]);
    DictsOnlyConcat(a, b);
    assert DictsOnly([x]) == DictsOnly([x][..0]) + [];
  }

  lemma {:induction false} RemoveNonDictsKeepsDicts(live: seq<Value>, i: nat)
    ensures DictsOnly(RemoveNonDicts(live, i)) == DictsOnly(live)
    decreases |live| - i
  {
    if i < |live| {
      if live[i].Obj? {
        RemoveNonDictsKeepsDicts(live, i + 1);
      } else {
        RemoveNonDictsKeepsDicts(RemoveFirst(live, live[i]), i + 1);
        DictsOnlyRemoveNonDict(live, live[i]);
      }
    }
  }

  /** The cleaning loop never drops a dict, and keeps the dicts in their order, whatever it does
      with the other entries. */
  lemma CleanedKeepsDicts(servers: seq<Value>)
    ensures DictsOnly(Cleaned(servers)) == DictsOnly(servers)
  {
    RemoveNonDictsKeepsDicts(servers, 0);
  }

  /** Only the dicts of a list are described. */
  lemma {:induction false} DescribedDictsOnly(servers: seq<Value>)
    ensures Described(DictsOnly(servers)) == Described(servers)
    decreases |servers|
  {
    if servers != [] {
      var n := |servers| - 1;
      DescribedDictsOnly(servers[..n]);
      var d := DictsOnly(servers[..n]);
      if servers[n].Obj? {
        assert (d + [servers[n]])[..|d|] == d;
      } else {
        assert DictsOnly(servers) == d;
      }
    }
  }

  /** Cleaning changes nothing about what is described. */
  lemma CleanedDescribed(servers: seq<Value>)
    ensures Described(Cleaned(servers)) == Described(servers)
  {
    DescribedDictsOnly(Cleaned(servers));
    CleanedKeepsDicts(servers);
    DescribedDictsOnly(servers);
  }

  /** Every listed entry is the projection of a dict of the list. */
  lemma {:induction false} ProjectDropsUndescribed(servers: seq<Value>, x: Value)
    requires Project(servers).Ok?
    requires x in Project(servers).value
    ensures exists s :: s in servers && s.Obj? && Projection(s) == Ok(x)
    decreases |servers|
  {
    var n := |servers| - 1;
    var prefix := servers[..n];
    ProjectLast(servers);
    var init := Project(prefix).value;
    if x in init {
      ProjectDropsUndescribed(prefix, x);
      var s :| s in prefix && s.Obj? && Projection(s) == Ok(x);
      assert s in servers;
    } else {
      assert Projection(servers[n]) == Ok(x);
    }
  }

  /** `get_servers` of `drf_openapi3/schema_generator.py` and of `AdvancedSchemaGenerator`:
      None without a request and without configured servers, else the projection of the cleaned
      list. */
  function ServersResult(servers: seq<Value>, request: Option<Request>): Result<Option<seq<Value>>> {
    if request.None? && servers == [] then Ok(None)
    else
      var out :- Project(Cleaned(servers));
      Ok(Some(out))
  }

  /** The settings list after either `get_servers`: cleaned unless the call returned early. */
  function ServersAfter(servers: seq<Value>, request: Option<Request>): seq<Value> {
    if request.None? && servers == [] then servers else Cleaned(servers)
  }

  /** No server is ever added: every listed server is a configured dict with both keys. */
  lemma ServersAreConfigured(servers: seq<Value>, request: Option<Request>, x: Value)
    requires ServersResult(servers, request).Ok? && ServersResult(servers, request).value.Some?
    requires x in ServersResult(servers, request).value.value
    ensures exists s :: s in servers && s.Obj? && Projection(s) == Ok(x)
  {
    ProjectDropsUndescribed(Cleaned(servers), x);
    var s :| s in Cleaned(servers) && s.Obj? && Projection(s) == Ok(x);
    CleanedSubset(servers, 0, s);
  }

  /** Whenever `get_servers` returns a list, it is the `{url, description}` projection of exactly
      the configured dicts that have both keys, in the configured order. */
  lemma ServersListDescribed(servers: seq<Value>, request: Option<Request>)
    requires ServersResult(servers, request).Ok? && ServersResult(servers, request).value.Some?
    ensures ServersResult(servers, request).value.value == Described(servers)
  {
    ProjectIsDescribed(Cleaned(servers));
    CleanedDescribed(servers);
  }

  /** Every configured dict with both keys is listed, whenever `get_servers` returns a list. */
  lemma ServersListEveryDescribed(servers: seq<Value>, request: Option<Request>, j: nat)
    requires ServersResult(servers, request).Ok? && ServersResult(servers, request).value.Some?
    requires j < |servers| && Describes(servers[j])
    ensures Projection(servers[j]).Ok? && Projection(servers[j]).value in ServersResult(servers, request).value.value
  {
    ServersListDescribed(servers, request);
    DescribedHas(servers, j);
  }

  lemma {:induction false} CleanedSubset(live: seq<Value>, i: nat, s: Value)
    requires s in RemoveNonDicts(live, i)
    ensures s in live
    decreases |live| - i
  {
    if i < |live| {
      if live[i].Obj? {
        CleanedSubset(live, i + 1, s);
      } else {
        CleanedSubset(RemoveFirst(live, live[i]), i + 1, s);
        var k := FirstIndex(live, live[i]);
        assert s in live[..k] + live[k + 1..];
      }
    }
  }

  /** `get_servers` of `drf_openapi3/schema_generator.py` and of `AdvancedSchemaGenerator`. */
  method GetServers(settings: DjangoSettings, request: Option<Request>) returns (r: Result<Option<seq<Value>>>)
    modifies settings
    ensures settings.apiServers == ServersAfter(old(settings.apiServers), request)
    ensures r == ServersResult(old(settings.apiServers), request)
  {
    if request.None? && settings.apiServers == [] {
      return Ok(None);
    }
    RemoveInvalidServers(settings);
    var out := Project(settings.apiServers);
    if out.Err? {
      return Err(out.error);
    }
    r := Ok(Some(out.value));
  }

  /** An intended `get_servers`: the invalid entries are filtered out rather than removed while
      iterating. */
  function ServersIntended(servers: seq<Value>, request: Option<Request>): (r: Result<Option<seq<Value>>>)
    ensures r.Ok?
  {
    if request.None? && servers == [] then Ok(None)
    else
      DictsOnlyMembers(servers);
      var out :- Project(DictsOnly(servers));
      Ok(Some(out))
  }

  /** The intended and the written `get_servers` agree unless two invalid entries are neighbours. */
  lemma IntendedAgreesWhenSpread(servers: seq<Value>, request: Option<Request>)
    requires NoAdjacentNonDicts(servers)
    ensures ServersResult(servers, request) == ServersIntended(servers, request)
  {
    CleanedIsDictsWhenSpread(servers);
  }

  /** An invalid entry right after another one is still there when the comprehension runs; a
      string that mentions both keys then makes the comprehension raise, where the intended
      version lists no server. */
  lemma SkippedEntryRaises()
    ensures ServersResult([Str("x"), Str("url description")], None) == Err(TypeError)
    ensures ServersIntended([Str("x"), Str("url description")], None) == Ok(Some([]))
  {
    CleanedSkipsSecond();
    MentionOfBothKeysRaises();
    var servers := [Str("x"), Str("url description")];
    assert DictsOnly(servers[..1]) == [] by {
      assert servers[..1][..0] == [];
    }
    assert DictsOnly(servers) == [];
  }

  /** After removing the first string the loop moves past the second one. */
  lemma CleanedSkipsSecond()
    ensures Cleaned([Str("x"), Str("url description")]) == [Str("url description")]
  {
    var servers := [Str("x"), Str("url description")];
    assert FirstIndex(servers, Str("x")) == 0;
    assert RemoveFirst(servers, Str("x")) == [Str("url description")];
  }

  /** A string holding both key names passes both `in` tests and is then indexed. */
  lemma MentionOfBothKeysRaises()
    ensures Project([Str("url description")]) == Err(TypeError)
  {
    assert PyStr.OccursAt("url description", "url", 0);
    assert PyStr.OccursAt("url description", "description", 4);
    assert Contribution(Str("url description")) == Err(TypeError);
    assert [Str("url description")][..0] == [];
  }

  /** `"{uri.scheme}://{uri.netloc}/"`. */
  function LocalUrl(request: Request): string {
    request.scheme + "://" + request.netloc + "/"
  }

  /** `{"url": local_url, "description": "Local server"}`. */
  function LocalServer(request: Request): Value {
    Obj([(SKey("url"), Str(LocalUrl(request))), (SKey("description"), Str("Local server"))])
  }

  /** `bool(next((s for s in servers if s["url"] == local_url), None))`: stops at the first match;
      an entry without `url` raises KeyError, one that is no dict raises TypeError. */
  function UrlAlreadySet(servers: seq<Value>, url: string): (r: Result<bool>)
    ensures r == Ok(false) ==>
      forall s :: s in servers ==> s.Obj? && Get(s.fields, SKey("url")).Some? && Get(s.fields, SKey("url")) != Some(Str(url))
    ensures r == Ok(true) ==> exists s :: s in servers && s.Obj? && Get(s.fields, SKey("url")) == Some(Str(url))
  {
    if servers == [] then Ok(false)
    else
      var s := servers[0];
      if !s.Obj? then Err(TypeError)
      else match Get(s.fields, SKey("url"))
        case None => Err(KeyError)
        case Some(u) =>
          if u == Str(url) then Ok(true)
          else
            var rest := UrlAlreadySet(servers[1..], url);
            assert forall x :: x in servers[1..] ==> x in servers;
            assert rest == Ok(false) ==> forall x :: x in servers ==> x == s || x in servers[1..];
            rest
  }

  /** `get_servers` of `drf_openapi/schema_generator.py`: after the cleaning loop the request is
      needed (AttributeError without one), and the local server is listed first unless a
      configured entry already has its url. */
  function LegacyServersResult(servers: seq<Value>, request: Option<Request>): Result<Option<seq<Value>>> {
    if request.None? && servers == [] then Ok(None)
    else if request.None? then Err(AttributeError)
    else
      var kept := Cleaned(servers);
      var isSet :- UrlAlreadySet(kept, LocalUrl(request.value));
      var all := if isSet then kept else [LocalServer(request.value)] + kept;
      var out :- Project(all);
      Ok(Some(out))
  }

  /** Configured servers without a request: the local url cannot be built. */
  lemma LegacyNeedsRequest(servers: seq<Value>)
    requires servers != []
    ensures LegacyServersResult(servers, None) == Err(AttributeError)
  {
  }

  /** The local server comes first exactly when no configured entry has its url, and it is
      never listed twice by the generator. */
  lemma LegacyLocalServerFirst(servers: seq<Value>, request: Request)
    requires LegacyServersResult(servers, Some(request)).Ok?
    ensures var kept := Cleaned(servers);
      var out := LegacyServersResult(servers, Some(request)).value;
      && out.Some?
      && (UrlAlreadySet(kept, LocalUrl(request)) == Ok(false) ==>
            Project(kept).Ok? && out.value == [LocalServer(request)] + Project(kept).value)
      && (UrlAlreadySet(kept, LocalUrl(request)) == Ok(true) ==> Project(kept) == Ok(out.value))
  {
    var kept := Cleaned(servers);
    if UrlAlreadySet(kept, LocalUrl(request)) == Ok(false) {
      var local := LocalServer(request);
      assert Contribution(local) == Ok(Some(Projection(local).value));
      ProjectCons(local, kept);
    }
  }

  /** Whenever the older `get_servers` returns a list, it is the local server (unless a configured
      entry has its url) followed by the projection of exactly the configured dicts that have both
      keys, in the configured order. */
  lemma LegacyServersListDescribed(servers: seq<Value>, request: Request)
    requires LegacyServersResult(servers, Some(request)).Ok?
    ensures LegacyServersResult(servers, Some(request)).value.Some?
    ensures LegacyServersResult(servers, Some(request)).value.value ==
      (if UrlAlreadySet(Cleaned(servers), LocalUrl(request)) == Ok(true) then [] else [LocalServer(request)])
      + Described(servers)
  {
    LegacyLocalServerFirst(servers, request);
    ProjectIsDescribed(Cleaned(servers));
    CleanedDescribed(servers);
    if UrlAlreadySet(Cleaned(servers), LocalUrl(request)) == Ok(true) {
      assert [] + Described(servers) == Described(servers);
    }
  }

  /** Projecting a described dict in front of a list puts its projection in front. */
  lemma {:induction false} ProjectCons(s: Value, servers: seq<Value>)
    requires Projection(s).Ok? && Contribution(s) == Ok(Some(Projection(s).value))
    requires Project([s] + servers).Ok?
    ensures Project(servers).Ok? && Project([s] + servers).value == [Projection(s).value] + Project(servers).value
    decreases |servers|
  {
    if servers == [] {
      var all := [s] + servers;
      ProjectLast(all);
      assert all[..0] == [];
    } else {
      ProjectConsPrefix(s, servers);
      ProjectCons(s, servers[..|servers| - 1]);
      ProjectConsStep(s, servers);
    }
  }

  lemma ProjectConsPrefix(s: Value, servers: seq<Value>)
    requires servers != [] && Project([s] + servers).Ok?
    ensures Project([s] + servers[..|servers| - 1]).Ok?
  {
    var all := [s] + servers;
    ProjectLast(all);
    assert all[..|all| - 1] == [s] + servers[..|servers| - 1];
  }

  lemma ProjectConsStep(s: Value, servers: seq<Value>)
    requires Projection(s).Ok? && Contribution(s) == Ok(Some(Projection(s).value))
    requires servers != [] && Project([s] + servers).Ok?
    requires var front := servers[..|servers| - 1];
      && Project(front).Ok? && Project([s] + front).Ok?
      && Project([s] + front).value == [Projection(s).value] + Project(front).value
    ensures Project(servers).Ok? && Project([s] + servers).value == [Projection(s).value] + Project(servers).value
  {
    var all := [s] + servers;
    var n := |servers| - 1;
    ProjectSnoc(all);
    ProjectSnoc(servers);
    assert all[..|all| - 1] == [s] + servers[..n];
    assert all[|all| - 1] == servers[n];
    ShiftFront(Project(all).value, Project([s] + servers[..n]).value, Project(servers[..n]).value,
               Project(servers).value, Listed(Contribution(servers[n])), Projection(s).value);
  }

  lemma ShiftFront<T>(whole: seq<T>, init: seq<T>, front: seq<T>, rest: seq<T>, tail: seq<T>, x: T)
    requires whole == init + tail && init == [x] + front && rest == front + tail
    ensures whole == [x] + rest
  {
  }

  /** What one contribution adds to the list. */
  function Listed(c: Result<Option<Value>>): seq<Value> {
    if c.Ok? && c.value.Some? then [c.value.value] else []
  }

  lemma ProjectSnoc(servers: seq<Value>)
    requires servers != [] && Project(servers).Ok?
    ensures Project(servers[..|servers| - 1]).Ok?
    ensures Project(servers).value == Project(servers[..|servers| - 1]).value + Listed(Contribution(servers[|servers| - 1]))
  {
  }

  /** The legacy method, statement by statement. */
  method GetServersLegacy(settings: DjangoSettings, request: Option<Request>) returns (r: Result<Option<seq<Value>>>)
    modifies settings
    ensures settings.apiServers == ServersAfter(old(settings.apiServers), request)
    ensures r == LegacyServersResult(old(settings.apiServers), request)
  {
    if request.None? && settings.apiServers == [] {
      return Ok(None);
    }
    RemoveInvalidServers(settings);
    if request.None? {
      return Err(AttributeError);
    }
    var servers := settings.apiServers;
    var localUrl := LocalUrl(request.value);
    var isSet := UrlAlreadySet(servers, localUrl);
    if isSet.Err? {
      return Err(isSet.error);
    }
    if !isSet.value {
      servers := [LocalServer(request.value)] + servers;
    }
    var out := Project(servers);
    if out.Err? {
      return Err(out.error);
    }
    r := Ok(Some(out.value));
  }
}
