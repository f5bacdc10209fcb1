/**
  The detail page of one school: a `schooldetails` div holding a table of
  label/value rows. Each row is given as the stripped texts of its `td` cells.
  Both `extract_school_details_from_html` functions (the master extractor's and
  the stand-alone one) are the same code and are modelled once here.
 */
module DetailPage {
  import opened Wrappers
  import Text

  /** The stripped cell texts of one table row. */
  type Row = seq<string>

  /** Extracted fields: normalised label -> value. */
  type Fields = map<string, string>

  /** What the parser finds on a detail page. */
  datatype DetailDoc =
    | NoDetailsDiv            // no `div#schooldetails`
    | NoTable                 // the div holds no `table`
    | Table(rows: seq<Row>)   // the `tr` rows of that table, in document order

  /** The outcome of one HTTP request for a detail page. */
  datatype Response =
    | Raised                  // timeout, connection error or HTTP error status
    | Fetched(doc: DetailDoc)

  /** Only rows with exactly two cells are label/value pairs. */
  predicate IsPair(row: Row)
  {
    |row| == 2
  }

  function KeyOf(row: Row): string
    requires IsPair(row)
  {
    Text.NormalizeKey(row[0])
  }

  /** Row `row` stores a value under key `k`. */
  predicate Writes(row: Row, k: string)
  {
    IsPair(row) && KeyOf(row) == k
  }

  /** Number of two-cell rows. */
  function PairCount(rows: seq<Row>): nat
  {
    if rows == [] then 0
    else PairCount(rows[..|rows| - 1]) + (if IsPair(rows[|rows| - 1]) then 1 else 0)
  }

  /** Index of the last row that writes key `k`, searching from the bottom of the table. */
  function LastWriter(rows: seq<Row>, k: string): (r: Option<nat>)
    ensures r.Some? ==> r.value < |rows| && Writes(rows[r.value], k)
    ensures r.Some? ==> forall j :: r.value < j < |rows| ==> !Writes(rows[j], k)
    ensures r.None? <==> forall j :: 0 <= j < |rows| ==> !Writes(rows[j], k)
  {
    if rows == [] then None
    else if Writes(rows[|rows| - 1], k) then Some(|rows| - 1)
    else LastWriter(rows[..|rows| - 1], k)
  }

  /**
    The loop over the rows: each two-cell row assigns `data[key] = value`,
    so a later row with the same key overwrites an earlier one.
   */
  function FoldRows(rows: seq<Row>): (m: Fields)
    ensures forall k :: k in m <==> LastWriter(rows, k).Some?
    ensures forall k :: k in m ==> m[k] == rows[LastWriter(rows, k).value][1]
    ensures |m| <= PairCount(rows)
  {
    if rows == [] then map[]
    else
      var m := FoldRows(rows[..|rows| - 1]);
      var row := rows[|rows| - 1];
      if IsPair(row) then m[KeyOf(row) := row[1]] else m
  }

  /** `extract_school_details_from_html`: None when the div or the table is missing. */
  function ExtractDetails(doc: DetailDoc): (r: Option<Fields>)
    ensures r.None? <==> !doc.Table?
    ensures r.Some? ==> forall k :: k in r.value ==> Text.IsNormalKey(k)
    ensures r.Some? ==> forall k :: k in r.value <==> LastWriter(doc.rows, k).Some?
    ensures r.Some? ==> forall k :: k in r.value ==> r.value[k] == doc.rows[LastWriter(doc.rows, k).value][1]
    ensures r.Some? ==> |r.value| <= PairCount(doc.rows)
  {
    match doc
    case NoDetailsDiv => None
    case NoTable => None
    case Table(rows) => Some(FoldRows(rows))
  }

  /** Every two-cell row contributes its key; nothing else does. */
  lemma {:induction false} KeysAreRowLabels(rows: seq<Row>)
    ensures FoldRows(rows).Keys == set i | 0 <= i < |rows| && IsPair(rows[i]) :: KeyOf(rows[i])
  {
    var m := FoldRows(rows);
    var s := set i | 0 <= i < |rows| && IsPair(rows[i]) :: KeyOf(rows[i]);
    forall k | k in m ensures k in s {
      var j := LastWriter(rows, k).value;
      assert KeyOf(rows[j]) == k;
    }
    forall k | k in s ensures k in m {
      var i :| 0 <= i < |rows| && IsPair(rows[i]) && KeyOf(rows[i]) == k;
      assert Writes(rows[i], k);
    }
  }

  /** Rows that are not label/value pairs may be dropped without changing the result. */
  lemma {:induction false} NonPairRowsIgnored(rows: seq<Row>, row: Row)
    requires !IsPair(row)
    ensures FoldRows(rows + [row]) == FoldRows(rows)
  {
    assert (rows + [row])[..|rows|] == rows;
  }

  /** Appending a pair row sets exactly its key and keeps every other entry. */
  lemma {:induction false} LaterRowWins(rows: seq<Row>, name: string, value: string)
    ensures var m := FoldRows(rows + [[name, value]]);
      && m[Text.NormalizeKey(name)] == value
      && (forall k :: k != Text.NormalizeKey(name) ==> (k in m <==> k in FoldRows(rows)))
      && (forall k :: k != Text.NormalizeKey(name) && k in m ==> m[k] == FoldRows(rows)[k])
  {
    assert (rows + [[name, value]])[..|rows|] == rows;
  }

  /** `if school_details: school_details['url'] = url`, with an empty map treated as not found. */
  function WithUrl(details: Fields, url: string): (r: Option<Fields>)
    ensures r.Some? <==> |details| > 0
    ensures r.Some? ==>
      && r.value.Keys == details.Keys + {"url"}
      && r.value["url"] == url
      && (forall k :: k in details && k != "url" ==> r.value[k] == details[k])
  {
    if |details| > 0 then Some(details["url" := url]) else None
  }

  /**
    `extract_school_details_from_url` (stand-alone extractor): a single request,
    no retry. An exception, a missing div or table, or an empty table gives None;
    otherwise the fields with `url` set to the requested URL.
   */
  function DetailsFromUrl(url: string, resp: Response): (r: Option<Fields>)
    ensures r.Some? <==> resp.Fetched? && resp.doc.Table? && |FoldRows(resp.doc.rows)| > 0
  {
    match resp
    case Fetched(Table(rows)) => WithUrl(FoldRows(rows), url)
    case _ => None
  }

  /**
    A non-empty result holds every extracted field plus `url`, set to the
    requested URL even when the table had a row labelled "url".
   */
  lemma DetailsFromUrlStampsUrl(url: string, resp: Response)
    ensures DetailsFromUrl(url, resp).Some? ==>
      && resp.Fetched? && resp.doc.Table?
      && var r := DetailsFromUrl(url, resp).value; var details := FoldRows(resp.doc.rows);
      && r.Keys == details.Keys + {"url"}
      && r["url"] == url
      && (forall k :: k in details && k != "url" ==> r[k] == details[k])
  {
  }
}
