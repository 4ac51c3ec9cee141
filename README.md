# drf-openapi, modelled in Dafny

drf-openapi extends the OpenAPI 3.0 generator of Django REST framework. The generator walks the
routes of a Django project and writes one OpenAPI document. This package changes how each
operation of that document is built:

- tags and a deprecation flag come from attributes of the view;
- a YAML block in the docstring of the view or method can overwrite or extend the operation;
- responses are listed per status code, from a static method/cardinality table;
- bulk ("many") views get array request and response bodies;
- operation ids are derived from the first tag, the action and the resource name.

It also changes how the document is assembled: paths are sorted, a fixed `ApiKeyAuth`
security scheme is added, and a server list is built from the `API_SERVERS` setting.

The repository holds two generations of this code:

- the older `drf_openapi` package: its schema generator and its settings tables;
- the newer `drf_openapi3` package:
  - `schema.py`, holding `AdvanceAutoSchema`;
  - `schemas/advanced.py`, holding `AdvancedSchemaGenerator` and `AdvancedAutoSchema`;
  - `schema_generator.py`;
  - its own settings tables.

## How the model is laid out

Python data is modelled as a JSON-like `PyValue.Value`. A dict is an insertion-ordered list of
`(key, value)` pairs whose keys are strings or integers. `Put` keeps the position of an existing
key and appends a new one, as a Python dict does.

A raised exception becomes `Wrappers.Result.Err` with one of these classes:

- `KeyError`
- `TypeError`
- `AttributeError`
- `NotImplementedError`
- `ValueError`
- `YAMLError`

The model shows where each is raised:

- indexing a missing key;
- testing `in` on a value that is neither dict, string nor list;
- hashing a dict;
- calling `.get` on a non-dict;
- the overlay loop's explicit `raise`;
- `dict.update` with an argument that is not a dict (TypeError for a value that cannot be
  iterated, ValueError for an item that is not a key/value pair);
- a YAML error other than ScannerError, which the docstring reader does not catch.

Some results come from code that is not part of this model: the framework's base classes, the
YAML loader, `formatting.dedent` and Django's settings. These results are parameters of the
functions and methods that use them.

Several methods of `schema.py` and `schemas/advanced.py` are textually identical. These are:

- `_yaml_safe_clean` and `_get_yaml_docstring`;
- the two loops of `get_operation`;
- `_get_allowed_responses`, `_get_media_types_content` and `_get_status_code_dict`;
- the body of `get_responses`.

Each of them is modelled once, in the modules `Docstring`, `Overlay`, `Responses` and `Bodies`. Both
classes call these shared modules. The `get_servers` of `drf_openapi3/schema_generator.py` and of
`AdvancedSchemaGenerator` are identical too, and are modelled once as `Servers.GetServers`.

Code that updates state step by step is imperative Dafny, and each such method is proved equal to a
specification function:

- the two `get_operation` loops;
- the property-deleting loops;
- the response table's fill loops;
- the remove-while-iterating loop over `API_SERVERS`;
- the tag list of `AdvancedAutoSchema`.

The properties are then proved about those functions. The settings object whose `API_SERVERS` list
`get_servers` shortens in place is the class `Servers.DjangoSettings`.

## Where the code and its design notes disagree

The model follows the code wherever the two disagree:

- **Docstring cleaning.** The docstring cleaner is described as stripping non-printable
  characters. The code only replaces tabs: `c.isprintable` is never called, so every character is
  kept.
- **Malformed YAML.** A malformed YAML docstring is described as degrading to a plain description
  and never raising. The code catches only `ScannerError`. Every other YAML error escapes from
  `get_operation`:
  - a reader error for a control character such as BEL, which the cleaner keeps;
  - a parser error for a docstring like `summary: x` followed by `- y`;
  - a constructor error for an unknown tag such as `!note`.
- **Status-description fallback.** A status overlay without a description is described as falling
  back to the table's description. The code indexes the table with the whole overlay entry, a dict,
  which raises TypeError. See Findings.
- **Invalid servers.** Invalid server entries are described as dropped. The code removes them from
  the list it is iterating over, so the entry right after a removed one is never examined. See
  Findings.
- **Server deduplication.** The server list is described as deduplicated by URL. The code only avoids
  adding the local server a second time (older package); configured duplicates stay.
- **DELETE request body.** "DELETE on a non-bulk view drops the request body" holds for
  `AdvanceAutoSchema` only. `AdvancedAutoSchema.get_operation` keeps it. Even there, the code
  deletes the key without checking it is present, so an operation without one raises KeyError.
  See Findings.

## Model

| member | source | states |
|---|---|---|
| Docstring.YamlSafeClean | drf_openapi3/schema.py:20-26 | the cleaned text holds no tab and is at least as long as the input |
| Docstring.YamlSafeCleanChar | drf_openapi3/schema.py:24-26 | a tab becomes four spaces; every other character, printable or not, is kept, since `isprintable` is never called |
| Docstring.YamlSafeCleanConcat | drf_openapi3/schemas/advanced.py:83-85 | cleaning works character by character: it distributes over concatenation |
| Docstring.YamlSafeCleanTabFree | drf_openapi3/schema.py:24-26 | tab-free text is left unchanged |
| Docstring.YamlSafeCleanIdempotent | drf_openapi3/schema.py:24-26 | cleaning twice is cleaning once |
| Docstring.SelectValid | drf_openapi3/schema.py:404-408 | every entry has a key from the allow-list and `append` equal to `many[key]` (False by default); no more entries than section keys |
| Docstring.SelectValidValues | drf_openapi3/schema.py:405 | each entry holds the section's value for its key, stripped when it is a string |
| Docstring.SelectValidKeepsOrder | drf_openapi3/schemas/advanced.py:209-213 | the entry keys are exactly the allowed keys of the section, in YAML order |
| Docstring.OverlayKeysAllowed | drf_openapi3/schema.py:369-375 | every overlay entry returned carries an allowed key (`summary`, `description`, `tags`, `responses`, or one of the eleven codes) and the caller's append flag |
| Docstring.ListReadsAsGet | drf_openapi3/schemas/advanced.py:172-184 | method `list` gives the same overlay as `get` |
| Docstring.EmptyDocumentFallback | drf_openapi3/schema.py:394-396 | an empty YAML document yields exactly one empty `description` entry |
| Docstring.ScannerErrorFallback | drf_openapi3/schema.py:381-392 | a scanner error yields exactly one `description` entry holding the dedented docstring with each line stripped, and nothing is raised |
| Docstring.OtherYamlErrorEscapes | drf_openapi3/schema.py:381-384 | any YAML error other than a scanner error is not caught and escapes |
| Docstring.YamlSafeCleanKeeps | drf_openapi3/schema.py:20-26 | the cleaner removes no character other than the tab, so control characters reach the YAML reader |
| Docstring.MissingMethodWrapsTree | drf_openapi3/schema.py:397-399 | a dict without the method key gives the same overlay as the document `{method: tree}` |
| Docstring.BareStringBecomesDescription | drf_openapi3/schema.py:400-402 | a bare string section becomes one `description` entry with the stripped string |
| Docstring.PlainTextMentioningMethodFails | drf_openapi3/schema.py:398-401 | as written, a plain-text docstring that contains the method name anywhere raises TypeError |
| Docstring.TargetDocstringCounterexample | drf_openapi3/schemas/advanced.py:203-207 | as written, a GET view documented "Return the target." raises TypeError |
| Docstring.PlainTextBecomesDescription | drf_openapi3/schema.py:393-402 | with the intended lookup, every plain-text docstring yields one description holding the stripped text |
| Docstring.IntendedAgreesOnDicts | drf_openapi3/schema.py:393-408 | the intended lookup and the written one agree on every document that is a dict |
| Overlay.ContentFields | drf_openapi3/schema.py:300-303 | the comprehension maps exactly each media type to the given entry |
| Overlay.MediaTypesContent | drf_openapi3/schema.py:294-303 | one `{schema}` per media type, the schema replaced by `{}` when its `properties` is `{}`; fails exactly when the schema is no dict and there is a media type |
| Overlay.StatusCodeDictIndexed | drf_openapi3/schema.py:305-319 | the status-code dict has the single key `code`; its response carries the given description and one content entry per media type |
| Overlay.OverlayStepResult | drf_openapi3/schema.py:70-82 | an int key is set aside; a string key changes only its own value, and is assigned when it does not append |
| Overlay.OverlayLoop | drf_openapi3/schema.py:69-82 | the entries set aside all carry int keys |
| Overlay.OverlayLoopErrorSticks | drf_openapi3/schema.py:70-82 | the first exception ends the loop |
| Overlay.ApplyEntry | drf_openapi3/schema.py:71-82 | the statement-by-statement body equals one step of the loop specification |
| Overlay.ApplyOverlay | drf_openapi3/schemas/advanced.py:110-123 | the overlay loop equals its fold specification, including stopping at the first exception |
| Overlay.OverlaySetsIntKeysAside | drf_openapi3/schema.py:72-73 | int-keyed entries are collected in order and never assigned into the operation |
| Overlay.OverlayLeavesUnnamedKeys | drf_openapi3/schema.py:69-82 | a key no entry names keeps its value |
| Overlay.OverlayLastOverwriteWins | drf_openapi3/schema.py:75-76 | a non-append string key not named again later ends holding its value |
| Overlay.OverlayAppendMerges | drf_openapi3/schema.py:77-82 | with append, a dict is updated by a dict (entry keys win, others kept), left as it is by an empty string or list, updated by a list of key/value pairs exactly when every item is a pair, and fails with ValueError for a non-empty string and TypeError for None, a number or a boolean; a list gets one more element, a missing key raises KeyError, any other value NotImplementedError; other keys unchanged |
| Overlay.SetResponse | drf_openapi3/schema.py:89-92 | `responses[str(code)]` is set and nothing else changes; fails exactly when `responses` is missing or no dict |
| Overlay.StatusStepResult | drf_openapi3/schema.py:84-92 | a successful step writes the response built from the entry's own description and its schema (default error schema when absent) |
| Overlay.ApplyStatusOverlays | drf_openapi3/schemas/advanced.py:125-133 | the status loop equals its fold specification |
| Overlay.StatusOverlaysDocumentCodes | drf_openapi3/schema.py:84-92 | every status entry not repeated later is documented under `responses[str(code)]` |
| Overlay.StatusOverlaysTouchOnlyResponses | drf_openapi3/schema.py:84-92 | the status loop changes no key but `responses` |
| Overlay.MissingDescriptionRaises | drf_openapi3/schema.py:85-87 | as written, a status entry without a description raises TypeError |
| Overlay.NotFoundWithoutDescriptionCounterexample | drf_openapi3/schemas/advanced.py:126-128 | as written, the overlay `{404: {schema: {}}}` raises TypeError and documents nothing |
| Overlay.IntendedFallsBackToTable | drf_openapi3/schema.py:85-88 | with the intended lookup, an entry without description or schema is documented with the table's description and the default error schema |
| Overlay.IntendedAgreesWhenDescribed | drf_openapi3/schema.py:85-87 | where the entry has a description, the intended step is the written one |
| Overlay.ApplyOverlays | drf_openapi3/schemas/advanced.py:109-133 | both loops of `get_operation` equal their specification |
| Overlay.OverlaidKeeps | drf_openapi3/schema.py:69-92 | a key other than `responses` that no entry names comes out of both loops unchanged |
| Overlay.OverlaidDocuments | drf_openapi3/schemas/advanced.py:124-133 | every int-keyed entry not repeated later ends documented under `responses[str(code)]` |
| Responses.RowFor | drf_openapi3/schema.py:271-283 | a row exists exactly for the five table methods; it is well formed and every code in it has a description |
| Responses.KeepAllowed | drf_openapi3/schema.py:275-280 | keeps exactly the codes the view allows |
| Responses.Selected | drf_openapi3/schema.py:274-283 | all codes of the row when the view lists none, else those it lists; no code twice |
| Responses.CodeKeysMember | drf_openapi3/schema.py:285 | `str(c)` is a response key exactly when `c` is one of the codes |
| Responses.ResponsesForSucceeds | drf_openapi3/schema.py:284-291 | described codes with a dict schema (or no media type) never fail |
| Responses.AddResponsesValues | drf_openapi3/schema.py:284-287 | each code is documented with its own response, and no other key changes |
| Responses.AllowedResponsesOutcome | drf_openapi3/schema.py:270-283 | a method without a row raises KeyError; with a row and a dict schema the table is always built |
| Responses.AllowedResponsesKeys | drf_openapi3/schema.py:274-292 | the keys are `str(c)` for the selected success codes then error codes, in table order, each once; a code appears iff the row lists it and the view allows it |
| Responses.AllowedResponsesValues | drf_openapi3/schemas/advanced.py:300-307 | success codes carry the given schema and error codes the default error schema, each with the table description |
| Responses.FillResponses | drf_openapi3/schema.py:284-287 | the fill loop equals its specification |
| Responses.BuildAllowedResponses | drf_openapi3/schemas/advanced.py:279-308 | `_get_allowed_responses` equals its specification |
| Bodies.DropFlaggedKeepsUnflagged | drf_openapi3/schema.py:198-200 | deleting while iterating over a copy keeps exactly the properties without the flag, in order; fails only on a schema that does not support `in` |
| Bodies.DropFlaggedProperties | drf_openapi3/schema.py:198-200 | the deleting loop equals its specification |
| Bodies.Keep | drf_openapi3/schema.py:234 | the comprehension keeps exactly the required names not removed |
| Bodies.KeepThenKeep | drf_openapi3/schemas/advanced.py:250 | filtering out names one at a time is filtering them out together |
| Bodies.DropName | drf_openapi3/schema.py:232-234 | the name leaves `properties` and `required` (when present); nothing else changes; fails when `properties` is missing or no dict |
| Bodies.WriteOnlyLoopDrops | drf_openapi3/schema.py:230-234 | after the loop, write-only properties are gone from `properties` and their names from `required`; nothing else changed |
| Bodies.DropWriteOnly | drf_openapi3/schemas/advanced.py:246-250 | the write-only loop equals its specification |
| Bodies.SimpleResponsesSingle200 | drf_openapi3/schema.py:247-259 | with `STATIC_ERROR_CODES` unset or False there is exactly one `'200'` response, description `""`, the schema under every media type |
| Bodies.StaticResponsesUseTable | drf_openapi3/schema.py:260-261 | any other setting documents the response table |
| Bodies.AsArray | drf_openapi3/schema.py:202-207 | `properties` goes, `type` is `array`, `items` holds the properties when truthy; nothing else changes |
| Bodies.RequestBodyEmptyOutsideWrites | drf_openapi3/schema.py:183-191 | outside PUT, PATCH, POST and DELETE, or without a serializer, the body is `{}` |
| Bodies.RequestContentRequired | drf_openapi3/schema.py:194-196 | PATCH has no `required`; other methods keep the serializer's |
| Bodies.RequestContentSingle | drf_openapi3/schema.py:197-200 | a single-object body keeps exactly the non-`readOnly` properties, in order |
| Bodies.RequestContentBulk | drf_openapi3/schema.py:201-207 | a list or bulk body is an array whose `items.properties` are the non-`readOnly` properties |
| Bodies.ItemSchemaDropsWriteOnly | drf_openapi3/schema.py:224-234 | the response item schema loses its write-only properties and their `required` names, nothing else |
| Bodies.BulkResponseIsArray | drf_openapi3/schema.py:236-246 | a bulk view documents an array of items unless a paginator wraps a list view |
| Bodies.BuildResponses | drf_openapi3/schemas/advanced.py:231-277 | the body of `get_responses` equals its specification |
| Schema3.ActionSuffix | drf_openapi3/schema.py:102-115 | `List` for list views, `List`+titled method for bulk views, else the titled action or mapped verb; KeyError exactly for a mapped action under an unmapped method |
| Schema3.StripSuffix | drf_openapi3/schema.py:123-130 | a name ending in the suffix loses exactly it; other names are unchanged |
| Schema3.Pluralize | drf_openapi3/schema.py:134-135 | many objects give a name ending in `s`, adding one only when missing; otherwise unchanged |
| Schema3.OperationIdStartsWithTag | drf_openapi3/schema.py:104-136 | the id starts with the first tag followed by the action suffix |
| Schema3.OperationIdErrors | drf_openapi3/schema.py:104-136 | the id fails exactly on the suffix KeyError or a missing/non-string first tag; a list tag raises AttributeError where the view class names the resource and TypeError elsewhere, any other tag TypeError |
| Schema3.OperationIdPluralForMany | drf_openapi3/schema.py:134-136 | list and bulk ids end in `s` |
| Schema3.NameFromOperation | drf_openapi3/schema.py:117-118 | a truthy `operation` attribute names the resource |
| Schema3.NameFromModel | drf_openapi3/schema.py:119-120 | otherwise the queryset's model names it |
| Schema3.NameFromSerializer | drf_openapi3/schema.py:121-124 | next the serializer class without `Serializer` |
| Schema3.NameFromViewClass | drf_openapi3/schema.py:125-132 | last the view class without `APIView` and without the titled action |
| Schema3.Prepared | drf_openapi3/schema.py:63-66 | `tags` is the view's tags; `deprecated: True` only for a deprecated view; nothing else changes |
| Schema3.Operation | drf_openapi3/schema.py:56-95 | the overlaid operation, with `requestBody` removed for a single-object DELETE and nothing else changed; when the overlay succeeds, it fails exactly for a single-object DELETE whose operation has no `requestBody` |
| Schema3.DeleteWithoutBodyRaises | drf_openapi3/schema.py:93-94 | as written, a single-object DELETE whose framework operation has no `requestBody` raises KeyError, even without a docstring |
| Schema3.OperationIntended | drf_openapi3/schema.py:93-94 | intended: fails exactly when the overlay fails; a single-object DELETE has no `requestBody`; every other key as overlaid |
| Schema3.IntendedAgreesWhenBodyPresent | drf_openapi3/schema.py:93-94 | wherever the written operation succeeds, the intended one gives the same |
| Schema3.DocstringSummaryReachesOperation | drf_openapi3/schema.py:56-82 | a docstring section `{method: {summary: x}}` gives an operation whose `summary` is `x` stripped; it fails exactly when a missing body is deleted |
| Schema3.OtherYamlErrorReachesOperation | drf_openapi3/schema.py:56-68 | a docstring that raises any YAML error other than a scanner error makes `get_operation` raise it |
| Schema3.ScannerErrorReachesOperation | drf_openapi3/schema.py:381-392 | a docstring YAML cannot parse becomes the operation's description, its dedented lines stripped and joined |
| Schema3.DocstringStatusReachesResponses | drf_openapi3/schema.py:84-92 | a docstring status entry `{200: {description, schema}}` sets `responses["200"]` to the response built from them |
| Schema3.OperationSetsTags | drf_openapi3/schema.py:63 | `tags` is the view's tags (default `['default']`) unless an overlay entry names `tags` |
| Schema3.OperationDeprecation | drf_openapi3/schema.py:65-66 | a deprecated view's operation says `deprecated: True`, any other keeps the framework's value |
| Schema3.OperationRequestBody | drf_openapi3/schema.py:93-94 | a single-object DELETE has no `requestBody`; other operations keep the framework's |
| Schema3.OperationDocumentsCodes | drf_openapi3/schema.py:84-92 | each status overlay not repeated later is documented in `responses` |
| Schema3.AllowsFilters | drf_openapi3/schema.py:321-329 | a bulk view offers filters on GET only; otherwise the framework's answer |
| Schema3.ReshapeRequestContent | drf_openapi3/schema.py:193-207 | the reshaping statements equal their specification |
| Schema3.AdvanceAutoSchema.constructor | drf_openapi3/schema.py:17 | the schema is bound to its view and has no media types yet |
| Schema3.AdvanceAutoSchema.GetOperationId | drf_openapi3/schema.py:97-136 | `_get_operation_id` by reassignment, `+=` on the first tag included, equals the operation-id specification, whose failures OperationIdErrors states |
| Schema3.AdvanceAutoSchema.GetActionSuffix | drf_openapi3/schema.py:102-115 | the suffix branches equal their specification |
| Schema3.AdvanceAutoSchema.GetResourceName | drf_openapi3/schema.py:116-132 | the name branches equal their specification |
| Schema3.AdvanceAutoSchema.GetOperation | drf_openapi3/schema.py:56-95 | `get_operation` equals its specification |
| Schema3.AdvanceAutoSchema.GetRequestBody | drf_openapi3/schema.py:175-213 | `_get_request_body` equals its specification; only body methods record the parsers |
| Schema3.AdvanceAutoSchema.GetResponses | drf_openapi3/schema.py:215-261 | records the renderers and equals the responses specification |
| Schema3.AdvanceAutoSchema.GetAllowedResponses | drf_openapi3/schema.py:263-292 | equals the table specification for the view's cardinality and allow-list |
| Advanced.AdvancedOperationKeepsTagsAndBody | drf_openapi3/schemas/advanced.py:104-134 | `tags` and `requestBody` keep the framework's values unless an overlay entry names them |
| Advanced.AdvancedOperationDeprecation | drf_openapi3/schemas/advanced.py:106-107 | a truthy `deprecated` marks the operation; a falsy one leaves it |
| Advanced.AdvancedOperationDocumentsCodes | drf_openapi3/schemas/advanced.py:124-133 | each status overlay not repeated later is documented in `responses` |
| Advanced.AdvancedAutoSchema.constructor | drf_openapi3/schemas/advanced.py:68-76 | `index`, `tags`, `handles_many_objects` and `deprecated` are stored unchanged |
| Advanced.AdvancedAutoSchema.AddTag | drf_openapi3/schemas/advanced.py:87-88 | one tag is appended; AttributeError while the tags are None; nothing else changes |
| Advanced.AdvancedAutoSchema.RemoveTag | drf_openapi3/schemas/advanced.py:90-94 | the first equal tag is removed, an absent one ignored; AttributeError while None |
| Advanced.AdvancedAutoSchema.SetTags | drf_openapi3/schemas/advanced.py:96-97 | the tags are replaced; nothing else changes |
| Advanced.AdvancedAutoSchema.GetOperation | drf_openapi3/schemas/advanced.py:99-134 | `get_operation` equals its specification, without writing tags or deleting the body |
| Advanced.AdvancedAutoSchema.GetResponses | drf_openapi3/schemas/advanced.py:231-277 | records the renderers and equals the responses specification |
| Advanced.AdvancedAutoSchema.GetAllowedResponses | drf_openapi3/schemas/advanced.py:279-308 | equals the table specification for the schema's cardinality |
| Advanced.DefaultSchema | drf_openapi3/schemas/advanced.py:68-69 | defaults: index 9999, no tags, one object, not deprecated |
| Advanced.AddThenRemoveTag | drf_openapi3/schemas/advanced.py:87-94 | adding then removing an absent tag gives the list back |
| PyList.RemoveFirst | drf_openapi3/schemas/advanced.py:92 | one element fewer when present, unchanged when absent |
| PyList.RemoveFirstMultiset | drf_openapi3/schemas/advanced.py:92 | exactly one copy of the tag leaves the list |
| Servers.DjangoSettings.constructor | drf_openapi3/schema_generator.py:16 | the settings hold the configured server list |
| Servers.RemoveNonDicts | drf_openapi3/schema_generator.py:24-30 | the cleaning loop never lengthens the list |
| Servers.RemoveInvalidServers | drf_openapi3/schema_generator.py:24-30 | the in-place loop leaves the list its index-walking specification gives |
| Servers.CleanedIsDictsWhenSpread | drf_openapi3/schemas/advanced.py:37-43 | when no two invalid entries are neighbours, exactly the dicts remain, in order |
| Servers.AdjacentInvalidEntrySurvives | drf_openapi3/schema_generator.py:24-30 | of two neighbouring invalid entries the second survives |
| Servers.Contribution | drf_openapi3/schema_generator.py:31-34 | a dict with both keys contributes its projection; a dict always passes the tests |
| Servers.Project | drf_openapi3/schema_generator.py:31-34 | every listed server has exactly the keys `url`, `description`; an all-dict list never fails |
| Servers.ProjectKeepsDescribed | drf_openapi3/schema_generator.py:31-34 | whenever the comprehension does not raise, every dict with both keys appears projected, whatever else the list holds |
| Servers.Described | drf_openapi3/schema_generator.py:31-34 | the intended listing: projections with exactly the keys `url`, `description`, never more entries than configured |
| Servers.ProjectIsDescribed | drf_openapi3/schema_generator.py:31-34 | whenever the comprehension does not raise, it lists exactly the described dicts, in order |
| Servers.CleanedKeepsDicts | drf_openapi3/schema_generator.py:24-30 | the cleaning loop keeps every dict, in order, even where it skips an invalid entry |
| Servers.CleanedDescribed | drf_openapi3/schema_generator.py:24-34 | cleaning changes nothing about which servers are described |
| Servers.ServersListDescribed | drf_openapi3/schema_generator.py:11-34 | whenever `get_servers` returns a list, it is exactly the described configured dicts, projected, in order |
| Servers.ServersListEveryDescribed | drf_openapi3/schemas/advanced.py:29-47 | whenever `get_servers` returns a list, every configured dict with both keys is in it |
| Servers.ProjectDropsUndescribed | drf_openapi3/schemas/advanced.py:44-47 | every listed server is the projection of a dict of the list |
| Servers.ServersAreConfigured | drf_openapi3/schemas/advanced.py:29-47 | no server is added: every one listed is a configured dict |
| Servers.GetServers | drf_openapi3/schema_generator.py:11-34 | None without request and servers; else the cleaned list, projected; the settings list is cleaned in place |
| Servers.ServersIntended | drf_openapi3/schema_generator.py:24-30 | filtering instead of removing never fails |
| Servers.IntendedAgreesWhenSpread | drf_openapi3/schemas/advanced.py:37-43 | the written and intended versions agree unless two invalid entries are neighbours |
| Servers.MentionOfBothKeysRaises | drf_openapi3/schema_generator.py:31-34 | a string entry mentioning both `url` and `description` passes the `in` tests and raises TypeError when indexed |
| Servers.SkippedEntryRaises | drf_openapi3/schema_generator.py:24-34 | as written, `["x", "url description"]` without a request raises TypeError; intended it lists no server |
| Servers.UrlAlreadySet | drf_openapi/schema_generator.py:31-32 | false only when every entry is a dict whose url differs; true only when one has the local url |
| Servers.LegacyNeedsRequest | drf_openapi/schema_generator.py:16-31 | configured servers without a request raise AttributeError |
| Servers.LegacyLocalServerFirst | drf_openapi/schema_generator.py:31-38 | the local server comes first exactly when no configured entry has its url, and is never listed twice |
| Servers.ProjectCons | drf_openapi/schema_generator.py:33-38 | a described dict in front is listed first, the rest unchanged |
| Servers.LegacyServersListDescribed | drf_openapi/schema_generator.py:11-38 | whenever the older `get_servers` succeeds, it lists the local server (unless a configured entry has its url) followed by exactly the described configured dicts, in order |
| Servers.GetServersLegacy | drf_openapi/schema_generator.py:11-38 | the older `get_servers` equals its specification, cleaning the settings list in place |
| Generators.SortByPath | drf_openapi3/schema_generator.py:61 | the sorted pairs are a permutation of the input |
| Generators.SortByPathSorted | drf_openapi3/schema_generator.py:61 | the sorted pairs ascend by path |
| Generators.SortByPathStrict | drf_openapi/schema_generator.py:64 | distinct paths come out strictly ascending |
| Generators.DocumentShape | drf_openapi3/schema_generator.py:47-60 | `openapi` is `3.0.2`, one `ApiKeyAuth` scheme, `security` is `[{"ApiKeyAuth": []}]`, servers as given, distinct keys |
| Generators.SchemeDescription | drf_openapi/schema_generator.py:51-63 | the scheme has a description exactly in the newer package |
| Generators.SchemeKeys | drf_openapi3/schema_generator.py:51-58 | the scheme is an API key in the `Authorization` header |
| Generators.DocumentPathsSorted | drf_openapi3/schema_generator.py:61 | `paths` holds the given paths with their items, ascending |
| Generators.GetSchema3 | drf_openapi3/schema_generator.py:36-64 | None without paths; otherwise the document with the described scheme and `get_servers`' result |
| Generators.GetSchemaLegacy | drf_openapi/schema_generator.py:40-67 | the same with the older server list and no scheme description |
| Generators.Secured | drf_openapi3/schemas/advanced.py:53-61 | `securitySchemes` and `security` are set, every other key kept; fails exactly without a dict `components` |
| Generators.GetSchemaAdvanced | drf_openapi3/schemas/advanced.py:49-63 | the framework's document with the scheme, `security` and `servers` added |
| Settings3.RowsExist | drf_openapi3/settings.py:7-58 | exactly GET, POST, PATCH, PUT and DELETE have rows, both cardinalities |
| Settings3.RowCodesDescribed | drf_openapi3/settings.py:7-97 | every code in any row has a description |
| Settings3.RowsWellFormed | drf_openapi3/settings.py:7-58 | 2xx success codes, 4xx error codes, none repeated |
| Settings3.ManyRowsSucceedWith200 | drf_openapi3/settings.py:13-57 | every `many` row succeeds with `[200]` |
| Settings3.NotAcceptableOnlyOnSingleDelete | drf_openapi3/settings.py:48-58 | 406 is an error code exactly of DELETE/one |
| Settings3.ContentFlagOnlyOnEmptyResponses | drf_openapi3/settings.py:61-97 | only 204 and 406 carry `content`, and it is False |
| Settings3.ServiceUnavailableUndescribed | drf_openapi3/settings.py:61-97 | 503 has no table entry |
| Settings3.DefaultErrorSchemaShape | drf_openapi3/settings.py:1-5 | one property `detail` of type string |
| PolicyTables.WellFormedRowDisjoint | drf_openapi3/settings.py:7-58 | success and error codes of a row never overlap |
| LegacySettings.RowsExist | drf_openapi/settings.py:7-58 | exactly the five methods have rows, both cardinalities |
| LegacySettings.RowCodesDescribed | drf_openapi/settings.py:7-92 | every code in any row has a description |
| LegacySettings.RowsWellFormed | drf_openapi/settings.py:7-58 | 2xx success codes, 4xx error codes, none repeated |
| LegacySettings.SingleDeleteErrors | drf_openapi/settings.py:48-52 | DELETE/one errors are exactly 400, 401, 403; no row has 406 |
| LegacySettings.NoContentFlags | drf_openapi/settings.py:61-92 | no entry has `content`; 404, 500 and 502 read "Empty Content" |
| LegacySettings.DefaultErrorSchemaShape | drf_openapi/settings.py:1-5 | one property `detail` of type string |
| ViewAttrs.Tags | drf_openapi3/schema.py:28-33 | the view's tags, or `['default']` |
| ViewAttrs.FirstTag | drf_openapi3/schema.py:35-40 | None exactly for an empty tag list, else its first tag |
| ViewAttrs.DefaultTag | drf_openapi3/schema.py:33-40 | a view without tags has first tag `default` |
| PyValue.Get | drf_openapi3/schema.py:86-88 | `d.get(k)` finds a value exactly for a stored key |
| PyValue.GetStored | drf_openapi3/schema.py:86-88 | in a dict, `get` returns the stored value |
| PyValue.Index | drf_openapi3/schema.py:85 | `d[k]` succeeds exactly on a dict holding `k` |
| PyValue.GetAttr | drf_openapi3/schema.py:86 | `.get` succeeds exactly on a dict |
| PyValue.Put | drf_openapi3/schema.py:76 | assignment sets the key and leaves every other key |
| PyValue.PutKeys | drf_openapi3/schema.py:76 | an existing key keeps its place, a new key goes last |
| PyValue.Update | drf_openapi3/schema.py:78 | `dict.update`: the argument's pairs win, other keys kept |
| PyValue.InPlaceAdd | drf_openapi3/schema.py:106-115 | `action += s`: strings concatenate, a list is extended by the characters of `s`, anything else raises TypeError |
| PyValue.Iterated | drf_openapi3/schema.py:78 | iterating yields a string's characters, a list's items, a dict's keys, and fails on anything else |
| PyValue.PairOf | drf_openapi3/schema.py:78 | an update item must be iterable (TypeError) and of length two (ValueError) with a hashable first element |
| PyValue.DictUpdate | drf_openapi3/schema.py:77-78 | `dict.update(v)`: a dict's pairs win; an empty string or list changes nothing; a non-empty string raises ValueError; None, a number or a boolean raise TypeError |
| PyValue.UpdatePairsFrame | drf_openapi3/schema.py:78 | a list of items updates exactly when every item is a pair, and keeps every key no item names |
| PyValue.PairListStores | drf_openapi3/schema.py:78 | `update([[k, v]])` stores `v` under `k` |
| PyValue.Remove | drf_openapi3/schema.py:94 | `del`: the key is gone, the other pairs kept in order |
| PyValue.InStr | drf_openapi3/schema.py:398 | `in` succeeds exactly on a dict, string or list |
| PyStr.StripIsTrimmedSlice | drf_openapi3/schema.py:405 | `strip()` returns a slice with no whitespace at its ends, and only whitespace was cut |
| PyStr.StripIdempotent | drf_openapi3/schema.py:389 | stripping twice is stripping once |
| PyStr.TitleFrom | drf_openapi3/schema.py:113 | `title()` upper-cases a letter after a non-letter and lower-cases the others |
| PyStr.IntToStringInjective | drf_openapi3/schema.py:89 | distinct codes give distinct `str(code)` keys |
| PyStr.LessTotal | drf_openapi3/schema_generator.py:61 | two different paths are ordered one way |

## Left out

- The YAML loader is a parameter (`load`). Its three outcomes are a tree, a ScannerError and any other YAML error; which text gives which is the loader's business. So are `formatting.dedent(...).splitlines()` (`dedentLines`) and the coerce table `SCHEMA_COERCE_METHOD_NAMES`. These are library code.
- `get_docstring` is not modelled: it reads `__doc__`, calls `get_view_description`, instantiates `__bases__[0]` and calls `strip_tags`, all reflection or Django code. The overlay it returns is an input to `get_operation`. Its `tags=True, responses=True` flags are the `many` parameter of `Docstring.YamlDocstring`.
- `_map_field` is not modelled. It depends on `type(x).__name__`, `__annotations__` and Python set iteration order.
- The framework's results are parameters, not computed:
  - `super().get_operation`, `_map_serializer`, `map_parsers` and `map_renderers`;
  - `is_list_view`, `_get_paginator` and the paginated schema;
  - `super()._allows_filters`, `get_paths`, `get_info` and `_initialise_endpoints`.
- Django settings:
  - `STATIC_ERROR_CODES` is a parameter;
  - `API_SERVERS` is the field of `Servers.DjangoSettings`; an absent setting is the empty list;
  - `urlparse(request.build_absolute_uri())` is given as scheme and netloc;
  - `warnings.warn` is dropped, since it only logs.
- Aliasing is not modelled. `operation["tags"] = self.tags` shares the view's list, so an appending `tags` overlay also grows the view's own attribute. Values here are copied.
- The deprecation-warning classes in drf_openapi3/settings.py, the view glue, the template view and setup.py are not modelled. They hold no logic.
- The older package's schema class is not part of this model. Its settings tables are modelled as constants with their lemmas.
- ViewAttrs.View: an `action` or `operation` attribute set to None counts as absent, and `operation` is assumed to be a string. `tags` is assumed to be a list: a string `tags` (first tag its first character, and `operation["tags"]` a string) is not represented. `allowed_status_codes` is a list of ints, where an empty list is falsy.
- PyStr.IsSpace: only whitespace below U+0100 counts. `strip()` also removes the Unicode spaces above it.
- PyStr.TitleFrom: cased means ASCII letters only. `title()` also handles other scripts.
- PyStr.Lower: ASCII letters only.
- PyValue.HashKey: a None key in a list of update pairs raises TypeError here, while Python stores it. A boolean key is stored as the integer 1 or 0, the key Python's `True == 1` makes it collide with.
- PyValue.Value: has no floats, dates or other scalars. Overlays with such values are not modelled.
- PyList.RemoveFirst: compares values structurally, so `True` and `1` are different entries. Python's `list.remove` and `in` treat them as equal. The same holds for the server cleaning in `Servers`.
- Bodies.DropName: a `required` entry that is a string or dict raises TypeError here. Python iterates it (characters, keys) and builds a list from it. Bodies.RequiredAfter passes it through unchanged.
- Advanced.AdvancedAutoSchema.constructor: the `operation_id_base` and `component_name` arguments go to the framework's constructor and are not part of this model.
- Schema3.OperationId: `action += suffix` on a list-valued first tag extends the view's own tag list in place before the id fails. The model computes the extended list as a copy, so that change to the view is not captured.
- Generators.SortByPath: a stable insertion sort stands in for Python's `sorted`. For distinct paths the two give the same order.

## Findings

| source | as written | input that shows it | evidently intended | confidence | as-written member | corrected member |
|---|---|---|---|---|---|---|
| drf_openapi3/schema.py:398-401 | `method in yml` on a plain-text document is a substring test, and `yml[method]` then indexes a string | a GET view whose docstring is the plain text "Return the target." (YAML loads it as a string containing "get") raises TypeError | a document that is not a dict is the method's section, so plain text becomes the description | high, not executed | Docstring.TargetDocstringCounterexample | Docstring.PlainTextBecomesDescription |
| drf_openapi3/schema.py:85-87 | the fallback description indexes `STATUS_CODES_RESPONSES` with the whole overlay entry `s`, a dict, which is unhashable | the overlay `{404: {schema: {}}}` raises TypeError | `STATUS_CODES_RESPONSES[s["key"]]['description']`, the table description of the code | high, not executed | Overlay.NotFoundWithoutDescriptionCounterexample | Overlay.IntendedFallsBackToTable |
| drf_openapi3/schema_generator.py:24-30 | `servers.remove(server)` inside `for server in servers` skips the entry after each removed one | `API_SERVERS = ["x", "url description"]` with no request: the second string survives, passes both `in` tests and raises TypeError when indexed | every entry that is not a dict is dropped | high, not executed | Servers.SkippedEntryRaises | Servers.IntendedAgreesWhenSpread |
| drf_openapi3/schema.py:93-94 | `del operation["requestBody"]` for every single-object DELETE, whether or not the operation has a body | a single-object DELETE on a view without a serializer: `_get_request_body` returns `{}` (drf_openapi3/schema.py:190-191), so the framework operation has no `requestBody`, and `del` raises KeyError | `operation.pop("requestBody", None)`: drop the body when there is one | medium (the framework's `get_operation` is not part of this model), not executed | Schema3.DeleteWithoutBodyRaises | Schema3.OperationIntended |
