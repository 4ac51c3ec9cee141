/** What the schema classes read from the view they document. */
module ViewAttrs {
  import opened Wrappers
  import opened PyValue

  /** The view's attributes; None where the view does not define one.
      `modelName` is `view.queryset.model.__name__`, `serializerClassName` the name of the class
      `view.get_serializer_class()` returns, `className` the view's own class name. */
  datatype View = View(
    tags: Option<seq<Value>>,
    deprecated: Option<Value>,
    many: Option<Value>,
    action: Option<string>,
    operation: Option<string>,
    modelName: Option<string>,
    serializerClassName: Option<string>,
    className: string,
    allowedStatusCodes: seq<int>)

  /** `getattr(view, 'tags', ['default'])`. */
  function Tags(view: View): (r: seq<Value>)
    ensures view.tags.None? ==> r == [Str("default")]
    ensures view.tags.Some? ==> r == view.tags.value
  {
    if view.tags.Some? then view.tags.value else [Str("default")]
  }

  /** `next((x for x in tags), None)`. */
  function FirstTag(view: View): (r: Option<Value>)
    ensures r.None? <==> Tags(view) == []
    ensures r.Some? ==> r.value == Tags(view)[0]
  {
    var tags := Tags(view);
    if tags == [] then None else Some(tags[0])
  }

  /** `getattr(view, 'deprecated', False)`, read for its truth. */
  predicate Deprecated(view: View) {
    view.deprecated.Some? && Truthy(view.deprecated.value)
  }

  /** `getattr(view, "many", False)`, read for its truth. */
  predicate HandlesMany(view: View) {
    view.many.Some? && Truthy(view.many.value)
  }

  /** An absent tags attribute reads as the single tag `default`. */
  lemma DefaultTag(view: View)
    requires view.tags.None?
    ensures FirstTag(view) == Some(Str("default"))
  {
  }
}
