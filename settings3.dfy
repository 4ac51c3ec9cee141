/** The constant tables of the `drf_openapi3` package. */
module Settings3 {
  import opened Wrappers
  import opened PyValue
  import opened PolicyTables

  /** `DEFAULT_ERROR_SCHEMA`: the body documented for every error response. */
  function DefaultErrorSchema(): Value {
    Obj([(SKey("properties"), Obj([
      (SKey("detail"), Obj([(SKey("type"), Str("string")), (SKey("description"), Str("Messaggio di errore"))]))
    ]))])
  }

  /** `METHOD_STATUS_CODES[method][cardinality]`; None where Python raises KeyError. */
  function MethodStatusCodes(httpMethod: string, card: Cardinality): Option<CodeRow> {
    match (httpMethod, card)
    case ("GET", One) => Some(CodeRow([200], [401, 403, 404]))
    case ("GET", Many) => Some(CodeRow([200], [401, 403]))
    case ("POST", One) => Some(CodeRow([201], [400, 401, 403]))
    case ("POST", Many) => Some(CodeRow([200], [400, 401, 403]))
    case ("PATCH", One) => Some(CodeRow([200, 204], [400, 401, 403]))
    case ("PATCH", Many) => Some(CodeRow([200], [400, 401, 403]))
    case ("PUT", One) => Some(CodeRow([202], [400, 401, 403]))
    case ("PUT", Many) => Some(CodeRow([200], [400, 401, 403]))
    case ("DELETE", One) => Some(CodeRow([204], [400, 401, 403, 406]))
    case ("DELETE", Many) => Some(CodeRow([200], [400, 401, 403]))
    case _ => None
  }

  /** `STATUS_CODES_RESPONSES[code]`; None where Python raises KeyError. */
  function StatusCodesResponses(code: int): Option<StatusEntry> {
    match code
    case 200 => Some(StatusEntry("Successful", None))
    case 201 => Some(StatusEntry("Created", None))
    case 202 => Some(StatusEntry("Update Accepted", None))
    case 204 => Some(StatusEntry("Empty Content", Some(false)))
    case 400 => Some(StatusEntry("Invalid Content", None))
    case 401 => Some(StatusEntry("Unauthorized", None))
    case 403 => Some(StatusEntry("Forbidden", None))
    case 404 => Some(StatusEntry("Not Found", None))
    case 406 => Some(StatusEntry("Not Acceptable", Some(false)))
    case 500 => Some(StatusEntry("Internal Server Error", None))
    case 502 => Some(StatusEntry("Bad Gateway", None))
    case _ => None
  }

  /** Exactly the five table methods have rows, each with both cardinalities. */
  lemma RowsExist(httpMethod: string, card: Cardinality)
    ensures MethodStatusCodes(httpMethod, card).Some? <==> httpMethod in TableMethods
  {
  }

  /** Every code in any row has a description: the lookups in the response builder never fail. */
  lemma RowCodesDescribed(httpMethod: string, card: Cardinality, code: int)
    requires MethodStatusCodes(httpMethod, card).Some?
    requires code in MethodStatusCodes(httpMethod, card).value.statusCodes
          || code in MethodStatusCodes(httpMethod, card).value.errorCodes
    ensures StatusCodesResponses(code).Some?
  {
  }

  /** Every row lists 2xx success codes and 4xx error codes, without repetition. */
  lemma RowsWellFormed(httpMethod: string, card: Cardinality)
    requires MethodStatusCodes(httpMethod, card).Some?
    ensures WellFormedRow(MethodStatusCodes(httpMethod, card).value)
  {
  }

  /** Every `many` row succeeds with 200 only. */
  lemma ManyRowsSucceedWith200(httpMethod: string)
    requires MethodStatusCodes(httpMethod, Many).Some?
    ensures MethodStatusCodes(httpMethod, Many).value.statusCodes == [200]
  {
  }

  /** 406 appears only in the DELETE/one row. */
  lemma NotAcceptableOnlyOnSingleDelete(httpMethod: string, card: Cardinality)
    requires MethodStatusCodes(httpMethod, card).Some?
    ensures 406 in MethodStatusCodes(httpMethod, card).value.errorCodes <==> httpMethod == "DELETE" && card == One
  {
  }

  /** Only 204 and 406 carry a `content` flag, and it is False. */
  lemma ContentFlagOnlyOnEmptyResponses(code: int)
    requires StatusCodesResponses(code).Some?
    ensures StatusCodesResponses(code).value.content.Some? <==> code == 204 || code == 406
    ensures StatusCodesResponses(code).value.content.Some? ==> StatusCodesResponses(code).value.content == Some(false)
  {
  }

  /** 503 is accepted as a docstring key but has no table entry. */
  lemma ServiceUnavailableUndescribed()
    ensures StatusCodesResponses(503).None?
  {
  }

  /** The default error body is a dict with the single string property `detail`. */
  lemma DefaultErrorSchemaShape()
    ensures IsDict(DefaultErrorSchema())
    ensures Get(DefaultErrorSchema().fields, SKey("properties")).Some?
    ensures var props := Get(DefaultErrorSchema().fields, SKey("properties")).value;
      && props.Obj? && KeysOf(props.fields) == [SKey("detail")]
      && Get(props.fields, SKey("detail")).value.Obj?
      && Get(Get(props.fields, SKey("detail")).value.fields, SKey("type")) == Some(Str("string"))
  {
  }
}
