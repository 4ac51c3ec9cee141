/** `AdvancedAutoSchema` of `drf_openapi3/schemas/advanced.py`: a per-view schema configured
    through its constructor, with an editable tag list. */
module Advanced {
  import opened Wrappers
  import opened PyValue
  import opened PyList
  import opened ViewAttrs
  import opened Docstring
  import opened Overlay
  import opened Responses
  import opened Bodies

  /** `get_operation`: `deprecated` as the constructor stored it, then both overlay loops. Unlike
      the older schema class, the view's tags are not written and no request body is deleted. */
  function AdvancedOperation(deprecated: Value, base: Fields, info: seq<Entry>, media: seq<string>): Result<Fields> {
    var op := if Truthy(deprecated) then Put(base, SKey("deprecated"), Bool(true)) else base;
    Overlaid(op, info, media)
  }

  /** The operation keeps the framework's `tags` and `requestBody` unless an overlay entry names
      them. */
  lemma AdvancedOperationKeepsTagsAndBody(deprecated: Value, base: Fields, info: seq<Entry>, media: seq<string>, k: Key)
    requires AdvancedOperation(deprecated, base, info, media).Ok?
    requires k == SKey("tags") || k == SKey("requestBody")
    requires forall e :: e in info ==> e.key != k
    ensures Get(AdvancedOperation(deprecated, base, info, media).value, k) == Get(base, k)
  {
    var op := if Truthy(deprecated) then Put(base, SKey("deprecated"), Bool(true)) else base;
    OverlaidKeeps(op, info, media, k);
  }

  /** A truthy `deprecated` setting marks the operation deprecated unless an overlay entry names
      `deprecated`. */
  lemma AdvancedOperationDeprecation(deprecated: Value, base: Fields, info: seq<Entry>, media: seq<string>)
    requires AdvancedOperation(deprecated, base, info, media).Ok?
    requires forall e :: e in info ==> e.key != SKey("deprecated")
    ensures var r := AdvancedOperation(deprecated, base, info, media).value;
      && (Truthy(deprecated) ==> Get(r, SKey("deprecated")) == Some(Bool(true)))
      && (!Truthy(deprecated) ==> Get(r, SKey("deprecated")) == Get(base, SKey("deprecated")))
  {
    var op := if Truthy(deprecated) then Put(base, SKey("deprecated"), Bool(true)) else base;
    OverlaidKeeps(op, info, media, SKey("deprecated"));
  }

  /** Each numeric overlay entry not repeated later documents its code in `responses`. */
  lemma AdvancedOperationDocumentsCodes(deprecated: Value, base: Fields, info: seq<Entry>, media: seq<string>, j: nat)
    requires AdvancedOperation(deprecated, base, info, media).Ok?
    requires j < |IntKeyed(info)|
    requires forall l :: j < l < |IntKeyed(info)| ==> IntKeyed(info)[l].key != IntKeyed(info)[j].key
    ensures Documents(AdvancedOperation(deprecated, base, info, media).value, IntKeyed(info)[j], media)
  {
    var op := if Truthy(deprecated) then Put(base, SKey("deprecated"), Bool(true)) else base;
    OverlaidDocuments(op, info, media, j);
  }

  class AdvancedAutoSchema {
    /** The view this schema documents. */
    const view: View
    var index: Value
    /** `_tags` as the framework's constructor stores the `tags` argument; None is Python's None. */
    var tags: Option<seq<Value>>
    var handlesManyObjects: Value
    var deprecated: Value
    /** `response_media_types`, set by `get_responses`. */
    var responseMediaTypes: seq<string>

    /** `__init__`, with the same defaults. */
    constructor(view: View, index: Value := Int(9999), tags: Option<seq<Value>> := None,
                handlesManyObjects: Value := Bool(false), deprecated: Value := Bool(false))
      ensures this.view == view && this.index == index && this.tags == tags
      ensures this.handlesManyObjects == handlesManyObjects && this.deprecated == deprecated
      ensures responseMediaTypes == []
    {
      this.view := view;
      this.index := index;
      this.tags := tags;
      this.handlesManyObjects := handlesManyObjects;
      this.deprecated := deprecated;
      responseMediaTypes := [];
    }

    /** `add_tag`: one more tag at the end; AttributeError while the tags are None. */
    method AddTag(tag: Value) returns (r: Result<()>)
      modifies this
      ensures old(tags).None? ==> r == Err(AttributeError) && tags == old(tags)
      ensures old(tags).Some? ==> r == Ok(()) && tags == Some(old(tags).value + [tag])
      ensures index == old(index) && handlesManyObjects == old(handlesManyObjects)
      ensures deprecated == old(deprecated) && responseMediaTypes == old(responseMediaTypes)
    {
      if tags.None? {
        return Err(AttributeError);
      }
      tags := Some(tags.value + [tag]);
      r := Ok(());
    }

    /** `remove_tag`: the first equal tag goes, an absent tag is ignored; AttributeError while
        the tags are None. */
    method RemoveTag(tag: Value) returns (r: Result<()>)
      modifies this
      ensures old(tags).None? ==> r == Err(AttributeError) && tags == old(tags)
      ensures old(tags).Some? ==> r == Ok(()) && tags == Some(RemoveFirst(old(tags).value, tag))
      ensures index == old(index) && handlesManyObjects == old(handlesManyObjects)
      ensures deprecated == old(deprecated) && responseMediaTypes == old(responseMediaTypes)
    {
      if tags.None? {
        return Err(AttributeError);
      }
      tags := Some(RemoveFirst(tags.value, tag));
      r := Ok(());
    }

    /** `set_tags`: the list is replaced. */
    method SetTags(newTags: Option<seq<Value>>)
      modifies this
      ensures tags == newTags
      ensures index == old(index) && handlesManyObjects == old(handlesManyObjects)
      ensures deprecated == old(deprecated) && responseMediaTypes == old(responseMediaTypes)
    {
      tags := newTags;
    }

    /** `get_operation`: the framework's operation and the overlay entries read from the
        docstring are inputs. */
    method GetOperation(base: Fields, info: seq<Entry>) returns (r: Result<Fields>)
      ensures r == AdvancedOperation(deprecated, base, info, responseMediaTypes)
    {
      var operation := base;
      if Truthy(deprecated) {
        operation := Put(operation, SKey("deprecated"), Bool(true));
      }
      r := ApplyOverlays(operation, info, responseMediaTypes);
    }

    /** `get_responses`: `renderers` is what `map_renderers` returns. */
    method GetResponses(httpMethod: string, renderers: seq<string>, serializerMap: Option<Fields>, listView: bool,
                        paginate: Option<Value -> Value>, staticErrorCodes: Option<Value>) returns (r: Result<Value>)
      modifies this
      ensures responseMediaTypes == renderers
      ensures tags == old(tags) && index == old(index)
      ensures handlesManyObjects == old(handlesManyObjects) && deprecated == old(deprecated)
      ensures r == OperationResponses(httpMethod, Truthy(handlesManyObjects), view.allowedStatusCodes, serializerMap,
                                      listView, paginate, staticErrorCodes, renderers)
    {
      responseMediaTypes := renderers;
      r := BuildResponses(httpMethod, Truthy(handlesManyObjects), view.allowedStatusCodes, serializerMap,
                          listView, paginate, staticErrorCodes, responseMediaTypes);
    }

    /** `_get_allowed_responses` for this schema's cardinality and view. */
    method GetAllowedResponses(httpMethod: string, schema: Value) returns (r: Result<Fields>)
      ensures r == AllowedResponses(httpMethod, Truthy(handlesManyObjects), view.allowedStatusCodes, schema, responseMediaTypes)
    {
      r := BuildAllowedResponses(httpMethod, Truthy(handlesManyObjects), view.allowedStatusCodes, schema, responseMediaTypes);
    }
  }

  /** The constructor's defaults: index 9999, no tags, one object, not deprecated. */
  method DefaultSchema(view: View) returns (s: AdvancedAutoSchema)
    ensures s.index == Int(9999) && s.tags.None?
    ensures !Truthy(s.handlesManyObjects) && !Truthy(s.deprecated)
  {
    s := new AdvancedAutoSchema(view);
  }

  /** `add_tag` then `remove_tag` of the same tag on a list without it gives back the list. */
  lemma AddThenRemoveTag(tags: seq<Value>, tag: Value)
    requires tag !in tags
    ensures RemoveFirst(tags + [tag], tag) == tags
  {
    assert FirstIndex(tags + [tag], tag) == |tags|;
  }
}
