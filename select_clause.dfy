/** `SqlSelectClause`: a SELECT statement held as its four clauses, and the
    two command texts assembled from them. */
module SqlSelect {
  import opened Text

  datatype SqlSelectClause = SqlSelectClause(
    columnClause: string,
    fromClause: string,
    whereClause: string,
    orderByClause: string)

  /** The text both commands share: the table and the filter. */
  function FromWhere(c: SqlSelectClause): string {
    "FROM " + c.fromClause + " WHERE " + c.whereClause
  }

  /** `ToCommandText` as written: nothing separates the where clause from
      `ORDER BY`. */
  function ToCommandText(c: SqlSelectClause): (text: string)
    ensures StartsWith(text, "SELECT ")
    ensures OccursAt(text, "ORDER BY " + c.orderByClause, |text| - |"ORDER BY " + c.orderByClause|)
  {
    var head := "SELECT " + c.columnClause + " " + FromWhere(c);
    var tail := "ORDER BY " + c.orderByClause;
    var text := head + tail;
    assert text[..7] == "SELECT ";
    assert text[|head|..|head| + |tail|] == tail;
    text
  }

  /** `ToCountCommand`: the count of the rows the filter selects. */
  function ToCountCommand(c: SqlSelectClause): string {
    "SELECT COUNT(*) " + FromWhere(c)
  }

  /** `ToCommandText` with the separator its layout calls for. */
  function ToCommandTextIntended(c: SqlSelectClause): (text: string)
    ensures StartsWith(text, "SELECT ")
    ensures OccursAt(text, " ORDER BY " + c.orderByClause, |text| - |" ORDER BY " + c.orderByClause|)
  {
    var head := "SELECT " + c.columnClause + " " + FromWhere(c);
    var tail := " ORDER BY " + c.orderByClause;
    var text := head + tail;
    assert text[..7] == "SELECT ";
    assert text[|head|..|head| + |tail|] == tail;
    text
  }

  /** The count command ignores the column and order-by clauses. */
  lemma CountIgnoresColumnsAndOrder(c: SqlSelectClause, columns: string, orderBy: string)
    ensures ToCountCommand(c) == ToCountCommand(c.(columnClause := columns, orderByClause := orderBy))
  {
  }

  /** With `COUNT(*)` as its column list the query is the count command
      followed by the ordering: both commands read the same rows. */
  lemma QueryExtendsCount(c: SqlSelectClause)
    ensures ToCommandText(c.(columnClause := "COUNT(*)")) == ToCountCommand(c) + "ORDER BY " + c.orderByClause
    ensures ToCommandTextIntended(c.(columnClause := "COUNT(*)")) == ToCountCommand(c) + " ORDER BY " + c.orderByClause
  {
    var d := c.(columnClause := "COUNT(*)");
    assert "SELECT " + "COUNT(*)" + " " == "SELECT COUNT(*) ";
    assert ToCommandText(d) == ("SELECT " + "COUNT(*)" + " " + FromWhere(c)) + ("ORDER BY " + c.orderByClause);
    assert ToCommandTextIntended(d) == ("SELECT " + "COUNT(*)" + " " + FromWhere(c)) + (" ORDER BY " + c.orderByClause);
  }

  /** The WHERE keyword is emitted even for an empty filter. */
  lemma EmptyFilterKeepsWhereKeyword(c: SqlSelectClause)
    requires c.whereClause == ""
    ensures ToCountCommand(c) == "SELECT COUNT(*) FROM " + c.fromClause + " WHERE "
  {
  }

  /** As written, the last character of a filter runs into the ORDER BY
      keyword: the filter "ID = 1" ordered by "NAME" yields
      "…WHERE ID = 1ORDER BY NAME". */
  lemma OrderByFusesWithFilter(c: SqlSelectClause)
    requires |c.whereClause| > 0 && c.whereClause[|c.whereClause| - 1] != ' '
    ensures var text := ToCommandText(c);
      var end := |"SELECT " + c.columnClause + " " + FromWhere(c)|;
      0 < end && OccursAt(text, "ORDER BY ", end) && text[end - 1] == c.whereClause[|c.whereClause| - 1] && text[end - 1] != ' '
  {
    var head := "SELECT " + c.columnClause + " " + FromWhere(c);
    var text := ToCommandText(c);
    assert text == head + ("ORDER BY " + c.orderByClause);
    assert head[|head| - 1] == c.whereClause[|c.whereClause| - 1];
    assert text[|head|..|head| + 9] == "ORDER BY ";
  }

  /** In the intended text the filter ends before a space, whatever it is. */
  lemma IntendedSeparatesFilterFromOrder(c: SqlSelectClause)
    ensures var text := ToCommandTextIntended(c);
      var end := |"SELECT " + c.columnClause + " " + FromWhere(c)|;
      end < |text| && text[..end] == "SELECT " + c.columnClause + " " + FromWhere(c) && text[end] == ' '
  {
    var head := "SELECT " + c.columnClause + " " + FromWhere(c);
    assert ToCommandTextIntended(c) == head + (" ORDER BY " + c.orderByClause);
  }
}
