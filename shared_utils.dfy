/**
 * ui/shared_utils.py: `sort_table` keeps, per column, the direction of the
 * last successful sort in the module-level `sort_directions` dict and sorts
 * the other way next time.  Running the query is the manager's
 * `execute_query`; whether it succeeds is the `succeeds` parameter, and
 * refilling the Treeview is presentation and not modelled.
 */
module SharedUtils {

  /** The direction after `current`: "DESC" after "ASC", "ASC" after anything else. */
  function NextDirection(current: string): (r: string)
    ensures r == "ASC" || r == "DESC"
    ensures r == "DESC" <==> current == "ASC"
  {
    if current == "ASC" then "DESC" else "ASC"
  }

  /** The direction a column was last sorted in; a column never sorted counts as "ASC". */
  function CurrentDirection(directions: map<string, string>, column: string): string
  {
    if column in directions then directions[column] else "ASC"
  }

  /** `f"{fetch_query} ORDER BY {column} {next_direction}"`. */
  function SortedQuery(fetchQuery: string, column: string, direction: string): (r: string)
    ensures |r| == |fetchQuery| + 10 + |column| + 1 + |direction|
    ensures r[..|fetchQuery|] == fetchQuery && r[|fetchQuery|..|fetchQuery| + 10] == " ORDER BY "
    ensures r[|r| - |direction|..] == direction
  {
    fetchQuery + " ORDER BY " + column + " " + direction
  }

  /** Flipping twice returns to a recorded direction. */
  lemma NextDirectionInvolution(d: string)
    requires d == "ASC" || d == "DESC"
    ensures NextDirection(NextDirection(d)) == d
  {
  }

  class SortState {
    /** `sort_directions`. */
    var directions: map<string, string>

    constructor ()
      ensures directions == map[]
    {
      directions := map[];
    }

    /**
     * `sort_table(treeview, column, fetch_query)`: run the query sorted the
     * other way from the column's recorded direction, and record that
     * direction only when the query succeeded.
     */
    method SortTable(column: string, fetchQuery: string, succeeds: bool) returns (query: string)
      modifies this
      ensures query == SortedQuery(fetchQuery, column, NextDirection(CurrentDirection(old(directions), column)))
      ensures succeeds ==> directions == old(directions)[column := NextDirection(CurrentDirection(old(directions), column))]
      ensures !succeeds ==> directions == old(directions)
    {
      var current := CurrentDirection(directions, column);
      var next := NextDirection(current);
      query := SortedQuery(fetchQuery, column, next);
      if succeeds {
        directions := directions[column := next];
      }
    }
  }

  /** The recorded directions after a successful sort of `column`. */
  function AfterSort(directions: map<string, string>, column: string): map<string, string>
  {
    directions[column := NextDirection(CurrentDirection(directions, column))]
  }

  /**
   * The first sort of a column is descending, the next ascending, and so on;
   * other columns keep their entries.
   */
  lemma SortAlternates(directions: map<string, string>, column: string, other: string)
    requires column !in directions && other != column
    ensures CurrentDirection(AfterSort(directions, column), column) == "DESC"
    ensures CurrentDirection(AfterSort(AfterSort(directions, column), column), column) == "ASC"
    ensures CurrentDirection(AfterSort(AfterSort(AfterSort(directions, column), column), column), column) == "DESC"
    ensures other in AfterSort(directions, column) <==> other in directions
    ensures other in directions ==> AfterSort(directions, column)[other] == directions[other]
  {
  }
}
