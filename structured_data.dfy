/** The structured-data agent (agents/structured_data_agent.py): the rows of
    a table with `Name` and `Symbol` columns, filtered by whether the query
    occurs, ignoring case, in either column. */
module StructuredData {
  import opened Wrappers
  import opened Text

  /** One row of the table; a missing cell (`NaN`) is `None`, and the other
      columns are kept as they are. */
  datatype Row = Row(name: Option<string>, symbol: Option<string>, other: map<string, string>)

  /** `column.str.contains(query, case=False, na=False)` for one cell: a
      missing cell never matches. */
  predicate CellContains(cell: Option<string>, query: string)
  {
    cell.Some? && Contains(Lower(cell.value), Lower(query))
  }

  /** The filter's mask for one row: the `Name` test or the `Symbol` test. */
  predicate Matches(row: Row, query: string)
  {
    CellContains(row.name, query) || CellContains(row.symbol, query)
  }

  /** The boolean-mask selection: the rows that match, in table order, each
      as often as it occurs in the table. */
  function FilterRows(rows: seq<Row>, query: string): (r: seq<Row>)
    ensures IsSubsequence(r, rows)
    ensures forall i :: 0 <= i < |r| ==> Matches(r[i], query)
    ensures forall row :: Matches(row, query) ==> multiset(r)[row] == multiset(rows)[row]
  {
    if rows == [] then []
    else
      var rest := FilterRows(rows[1..], query);
      assert rows == [rows[0]] + rows[1..];
      if Matches(rows[0], query) then
        assert ([rows[0]] + rest)[1..] == rest;
        [rows[0]] + rest
      else
        SubsequenceCons(rest, rows);
        rest
  }

  /** A row with neither a name nor a symbol never matches, and the empty
      query matches every row that has at least one of them. */
  lemma EmptyQueryMatches(row: Row)
    ensures Matches(row, "") <==> row.name.Some? || row.symbol.Some?
  {
    if row.name.Some? {
      ContainsEmpty(Lower(row.name.value));
    }
    if row.symbol.Some? {
      ContainsEmpty(Lower(row.symbol.value));
    }
  }

  /** Filtering the selection again with the same query changes nothing. */
  lemma {:induction false} FilterIdempotent(rows: seq<Row>, query: string)
    ensures FilterRows(FilterRows(rows, query), query) == FilterRows(rows, query)
  {
    if rows != [] {
      FilterIdempotent(rows[1..], query);
      var rest := FilterRows(rows[1..], query);
      if Matches(rows[0], query) {
        assert ([rows[0]] + rest)[1..] == rest;
      }
    }
  }

  /** Only the lower-cased query matters: queries that differ in the case of
      ASCII letters select the same rows. */
  lemma {:induction false} QueryCaseIgnored(rows: seq<Row>, q1: string, q2: string)
    requires Lower(q1) == Lower(q2)
    ensures FilterRows(rows, q1) == FilterRows(rows, q2)
  {
    if rows != [] {
      QueryCaseIgnored(rows[1..], q1, q2);
      assert Matches(rows[0], q1) == Matches(rows[0], q2);
    }
  }

  /** `StructuredDataAgent`: the table it was built with, never changed,
      and the queries it has been asked, in order. */
  class StructuredDataAgent {
    const structuredData: seq<Row>
    ghost var queries: seq<string>

    constructor (structuredData: seq<Row>)
      ensures this.structuredData == structuredData && queries == []
    {
      this.structuredData := structuredData;
      queries := [];
    }

    /** `retrieve_relevant_data(query)`. */
    function RetrieveRelevantData(query: string): seq<Row>
    {
      FilterRows(structuredData, query)
    }

    /** `generate_response(query)` hands back exactly what
        `retrieve_relevant_data(query)` selects. */
    method GenerateResponse(query: string) returns (r: seq<Row>)
      modifies this
      ensures r == RetrieveRelevantData(query)
      ensures queries == old(queries) + [query]
    {
      r := RetrieveRelevantData(query);
      queries := queries + [query];
    }
  }
}
