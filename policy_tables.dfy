/** The shape of the static status-code policy tables that both settings modules define. */
module PolicyTables {
  import opened Wrappers

  /** The cardinality a view is documented with: one object, or many (bulk / list). */
  datatype Cardinality = One | Many

  /** One row of `METHOD_STATUS_CODES[method][cardinality]`. */
  datatype CodeRow = CodeRow(statusCodes: seq<int>, errorCodes: seq<int>)

  /** One entry of `STATUS_CODES_RESPONSES[code]`; `content` is the optional `content` flag. */
  datatype StatusEntry = StatusEntry(description: string, content: Option<bool>)

  /** The methods that have rows in both tables. */
  const TableMethods: seq<string> := ["GET", "POST", "PATCH", "PUT", "DELETE"]

  predicate IsSuccess(code: int) { 200 <= code < 300 }
  predicate IsClientError(code: int) { 400 <= code < 500 }

  predicate NoDuplicates(s: seq<int>) {
    forall i, j :: 0 <= i < j < |s| ==> s[i] != s[j]
  }

  /** A well-formed row: 2xx success codes, 4xx error codes, no code listed twice. */
  predicate WellFormedRow(row: CodeRow) {
    && (forall c :: c in row.statusCodes ==> IsSuccess(c))
    && (forall c :: c in row.errorCodes ==> IsClientError(c))
    && NoDuplicates(row.statusCodes)
    && NoDuplicates(row.errorCodes)
  }

  /** Success and error codes of a well-formed row never overlap. */
  lemma WellFormedRowDisjoint(row: CodeRow)
    requires WellFormedRow(row)
    ensures forall c :: c in row.statusCodes ==> c !in row.errorCodes
  {
  }
}
