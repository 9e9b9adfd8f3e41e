/**
 * The data table: the first row of the data is the header, the rest are shown
 * ten to a page, the pager moves one page at a time within the page range, and
 * the download is the rows written out as comma-separated quoted cells.
 */
module DataTable {
  import opened Common
  import opened Strings

  /** A row of the table, one text per cell. */
  type Row = seq<string>

  /** What the component shows: the no-data message, or a header and its body rows. */
  datatype TableView = NoData | Table(headers: Row, rows: seq<Row>)

  const ItemsPerPage: nat := 10

  /** The header/body split of the data; absent or empty data shows the no-data message. */
  function Layout(data: Option<seq<Row>>): (v: TableView)
    ensures v.NoData? <==> data.None? || |data.value| == 0
    ensures v.Table? ==> [v.headers] + v.rows == data.value
  {
    if data.None? || |data.value| == 0 then NoData
    else
      var d := data.value;
      assert [d[0]] + d[1..] == d;
      Table(d[0], d[1..])
  }

  /** `Math.ceil(n / 10)`. */
  function TotalPages(n: nat): (pages: nat)
    ensures pages * ItemsPerPage >= n
    ensures pages > 0 ==> (pages - 1) * ItemsPerPage < n
  {
    (n + ItemsPerPage - 1) / ItemsPerPage
  }

  function Min(a: int, b: int): int {
    if a <= b then a else b
  }

  /** `rows.slice((page - 1) * 10, page * 10)`: the rows of one page. */
  function PageItems(rows: seq<Row>, page: nat): (items: seq<Row>)
    requires page >= 1
    ensures |items| <= ItemsPerPage
    ensures var first := Min((page - 1) * ItemsPerPage, |rows|);
      items == rows[first..Min(page * ItemsPerPage, |rows|)]
  {
    rows[Min((page - 1) * ItemsPerPage, |rows|)..Min(page * ItemsPerPage, |rows|)]
  }

  /** Pages 1 .. count, one after the other. */
  function PagesUpTo(rows: seq<Row>, count: nat): seq<Row> {
    if count == 0 then [] else PagesUpTo(rows, count - 1) + PageItems(rows, count)
  }

  lemma {:induction false} PagesUpToPrefix(rows: seq<Row>, count: nat)
    ensures PagesUpTo(rows, count) == rows[..Min(count * ItemsPerPage, |rows|)]
  {
    if count > 0 {
      PagesUpToPrefix(rows, count - 1);
      var a, b := Min((count - 1) * ItemsPerPage, |rows|), Min(count * ItemsPerPage, |rows|);
      assert rows[..a] + rows[a..b] == rows[..b];
    }
  }

  /** The pages 1 .. totalPages, read in order, hold every row exactly once and in order. */
  lemma PagesPartitionRows(rows: seq<Row>)
    ensures PagesUpTo(rows, TotalPages(|rows|)) == rows
  {
    PagesUpToPrefix(rows, TotalPages(|rows|));
    assert rows[..|rows|] == rows;
  }

  /** Row i is shown on page i / 10 + 1, at position i % 10. */
  lemma RowOnItsPage(rows: seq<Row>, i: nat)
    requires i < |rows|
    ensures var page := i / ItemsPerPage + 1;
      page <= TotalPages(|rows|) && i % ItemsPerPage < |PageItems(rows, page)|
      && PageItems(rows, page)[i % ItemsPerPage] == rows[i]
  {
  }

  /** The pagination controls are shown exactly when there are more than ten body rows. */
  lemma ControlsShownIffMoreThanAPage(rows: seq<Row>)
    ensures TotalPages(|rows|) > 1 <==> |rows| > ItemsPerPage
  {
  }

  /**
   * The page state: `currentPage` starts at 1, and `nextPage` / `prevPage` move it
   * by one within 1 .. totalPages (page 1 when the body is empty).
   */
  class Pager {
    const totalPages: nat
    var currentPage: nat

    predicate Valid()
      reads this
    {
      1 <= currentPage && (currentPage <= totalPages || currentPage == 1)
    }

    constructor (rows: seq<Row>)
      ensures totalPages == TotalPages(|rows|) && currentPage == 1 && Valid()
    {
      totalPages := TotalPages(|rows|);
      currentPage := 1;
    }

    /** The next-page button is disabled on the last page. */
    predicate NextDisabled()
      reads this
    {
      currentPage == totalPages
    }

    /** The previous-page button is disabled on the first page. */
    predicate PrevDisabled()
      reads this
    {
      currentPage == 1
    }

    /** `nextPage`: one page on when there is one. */
    method NextPage()
      requires Valid()
      modifies this
      ensures Valid()
      ensures old(currentPage) < totalPages ==> currentPage == old(currentPage) + 1
      ensures old(currentPage) >= totalPages ==> currentPage == old(currentPage)
    {
      if currentPage < totalPages {
        currentPage := currentPage + 1;
      }
    }

    /** `prevPage`: one page back when there is one. */
    method PrevPage()
      requires Valid()
      modifies this
      ensures Valid()
      ensures old(currentPage) > 1 ==> currentPage == old(currentPage) - 1
      ensures old(currentPage) <= 1 ==> currentPage == old(currentPage)
    {
      if currentPage > 1 {
        currentPage := currentPage - 1;
      }
    }

    /** The rows on the current page. */
    function Shown(rows: seq<Row>): seq<Row>
      requires Valid()
      reads this
    {
      PageItems(rows, currentPage)
    }
  }

  /** A valid page always shows between one and ten rows of a non-empty body. */
  lemma ValidPageNonEmpty(rows: seq<Row>, page: nat)
    requires |rows| > 0 && 1 <= page <= TotalPages(|rows|)
    ensures 1 <= |PageItems(rows, page)| <= ItemsPerPage
  {
  }

  // ---------------------------------------------------------------- CSV

  /** A cell as written: between double quotes, with no escaping. */
  function Quoted(cell: string): (q: string)
    ensures |q| == |cell| + 2 && q[0] == '"' && q[|q| - 1] == '"' && q[1..|q| - 1] == cell
  {
    "\"" + cell + "\""
  }

  /** One CSV line: the quoted cells joined by ','. */
  function CsvLine(row: Row): string {
    Join(seq(|row|, i requires 0 <= i < |row| => Quoted(row[i])), ",")
  }

  function CsvLines(data: seq<Row>): (lines: seq<string>)
    ensures |lines| == |data|
    ensures forall i :: 0 <= i < |data| ==> lines[i] == CsvLine(data[i])
  {
    seq(|data|, i requires 0 <= i < |data| => CsvLine(data[i]))
  }

  /** The text `downloadCSV` saves: one line per row, header included, joined by '\n'. */
  function Csv(data: seq<Row>): string {
    Join(CsvLines(data), "\n")
  }

  /** Whether no cell of the data contains the character. */
  predicate Avoids(data: seq<Row>, c: char) {
    forall i, j :: 0 <= i < |data| && 0 <= j < |data[i]| ==> c !in data[i][j]
  }

  /** With no line break inside a cell, the CSV text splits back into one line per row. */
  lemma CsvOneLinePerRow(data: seq<Row>)
    requires |data| > 0 && Avoids(data, '\n')
    ensures Split(Csv(data), '\n') == CsvLines(data)
  {
    var lines := CsvLines(data);
    forall i | 0 <= i < |lines| ensures '\n' !in lines[i] {
      LineAvoids(data[i], '\n');
    }
    SplitJoin(lines, '\n');
  }

  /** With no comma inside a cell, a line splits back on ',' into the quoted cells. */
  lemma CsvLineCells(row: Row)
    requires |row| > 0
    requires forall j :: 0 <= j < |row| ==> ',' !in row[j]
    ensures Split(CsvLine(row), ',') == seq(|row|, i requires 0 <= i < |row| => Quoted(row[i]))
  {
    var cells := seq(|row|, i requires 0 <= i < |row| => Quoted(row[i]));
    forall i | 0 <= i < |cells| ensures ',' !in cells[i] {
      QuotedAvoids(row[i], ',');
    }
    SplitJoin(cells, ',');
  }

  lemma QuotedAvoids(cell: string, c: char)
    requires c != '"' && c !in cell
    ensures c !in Quoted(cell)
  {
    assert Quoted(cell) == ['"'] + cell + ['"'];
  }

  lemma LineAvoids(row: Row, c: char)
    requires c != '"' && c != ',' && forall j :: 0 <= j < |row| ==> c !in row[j]
    ensures c !in CsvLine(row)
  {
    var cells := seq(|row|, i requires 0 <= i < |row| => Quoted(row[i]));
    forall i | 0 <= i < |cells| ensures c !in cells[i] {
      QuotedAvoids(row[i], c);
    }
    JoinAvoids(cells, ",", c);
  }

  lemma {:induction false} JoinAvoids(parts: seq<string>, sep: string, c: char)
    requires c !in sep && forall i :: 0 <= i < |parts| ==> c !in parts[i]
    ensures c !in Join(parts, sep)
  {
    if |parts| > 1 {
      JoinAvoids(parts[1..], sep, c);
    }
  }

  /**
   * Embedded quotes are not escaped, so different tables can be saved as the same
   * text: one cell `a","b` and the two cells `a`, `b` both give `"a","b"`.
   */
  lemma CsvQuotesNotEscaped()
    ensures Csv([["a\",\"b"]]) == Csv([["a", "b"]])
  {
    assert CsvLine(["a\",\"b"]) == "\"a\",\"b\"";
    var row := ["a", "b"];
    var two := seq(|row|, i requires 0 <= i < |row| => Quoted(row[i]));
    assert |two| == 2 && two[0] == "\"a\"" && two[1] == "\"b\"";
    assert two == ["\"a\"", "\"b\""];
    assert two[1..] == ["\"b\""];
    assert CsvLine(["a", "b"]) == "\"a\",\"b\"";
    assert CsvLines([["a\",\"b"]]) == ["\"a\",\"b\""];
    assert CsvLines([["a", "b"]]) == ["\"a\",\"b\""];
  }
}
