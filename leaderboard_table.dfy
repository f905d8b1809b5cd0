/**
 * The leaderboard table component: ten standings per page, the page's
 * slice of the ranked list, the rank shown on each row, and the `page`
 * state the pagination control sets.
 */
module LeaderboardTable {
  import opened Js

  const RowsPerPage: int := 10

  /** A standing as the table receives it. */
  datatype Standing = Standing(id: string, name: Nullable, image: Nullable, totalPoints: int)

  /** One rendered row: the rank, the name shown, the points. */
  datatype Row = Row(rank: int, id: string, name: string, totalPoints: int)

  /** What the component renders: the empty table, or the page's rows and whether the pagination control shows. */
  datatype View = EmptyTable | Table(rows: seq<Row>, pagination: bool)

  /** `Math.ceil(length / rowsPerPage)`. */
  function Pages(n: nat): (r: nat)
    ensures r * RowsPerPage >= n
    ensures r > 0 ==> (r - 1) * RowsPerPage < n
  {
    (n + RowsPerPage - 1) / RowsPerPage
  }

  /** `items`: the page's slice, nothing for an empty list. */
  function Items(s: seq<Standing>, page: int): seq<Standing> {
    if |s| == 0 then []
    else
      var start := (page - 1) * RowsPerPage;
      Slice(s, start, start + RowsPerPage)
  }

  /** `user.name || 'User'`. */
  function DisplayName(name: Nullable): string {
    if TruthyText(name) then name.value else "User"
  }

  /** `items.map((user, index) => ...)` with `globalIndex + 1` as the rank. */
  function Rows(s: seq<Standing>, page: int): (r: seq<Row>)
    ensures |r| == |Items(s, page)|
  {
    var items := Items(s, page);
    seq(|items|, i requires 0 <= i < |items| =>
      Row((page - 1) * RowsPerPage + i + 1, items[i].id, DisplayName(items[i].name), items[i].totalPoints))
  }

  function Render(s: seq<Standing>, page: int): View {
    if |s| == 0 then EmptyTable else Table(Rows(s, page), Pages(|s|) > 1)
  }

  /**
   * On a page from 1 on, the rows are the standings from `(page - 1) * 10`
   * to at most ten further, cut at the end of the list.
   */
  lemma ItemsWindow(s: seq<Standing>, page: int)
    requires page >= 1
    ensures |Items(s, page)| <= RowsPerPage
    ensures var start := (page - 1) * RowsPerPage;
      Items(s, page) == if start >= |s| then [] else s[start..if start + RowsPerPage < |s| then start + RowsPerPage else |s|]
  {
  }

  /**
   * The rank a row shows is its 1-based position in the whole list: the
   * standing at that position is the row's.
   */
  lemma RankIsPosition(s: seq<Standing>, page: int, i: nat)
    requires page >= 1 && i < |Rows(s, page)|
    ensures var row := Rows(s, page)[i];
      1 <= row.rank <= |s| && s[row.rank - 1].id == row.id && s[row.rank - 1].totalPoints == row.totalPoints
  {
    ItemsWindow(s, page);
  }

  /** Every standing shows up on one of pages 1 to `pages`, on the page and row its position gives. */
  lemma EveryStandingShown(s: seq<Standing>, k: nat)
    requires k < |s|
    ensures var page := k / RowsPerPage + 1;
      1 <= page <= Pages(|s|) && k % RowsPerPage < |Rows(s, page)| &&
      Rows(s, page)[k % RowsPerPage] == Row(k + 1, s[k].id, DisplayName(s[k].name), s[k].totalPoints)
  {
    var page := k / RowsPerPage + 1;
    ItemsWindow(s, page);
    assert (page - 1) * RowsPerPage + k % RowsPerPage == k;
  }

  /**
   * An empty list renders the empty table and no row; otherwise the
   * pagination control shows exactly when there is more than one page,
   * that is more than ten standings.
   */
  lemma RenderRows(s: seq<Standing>, page: int)
    ensures Render(s, page) == EmptyTable <==> |s| == 0
    ensures Render(s, page).Table? ==> (Render(s, page).pagination <==> |s| > RowsPerPage)
  {
  }

  /** The component's `page` state. */
  class PageState {
    var page: int

    /** `useState(1)`. */
    constructor ()
      ensures page == 1
    {
      page := 1;
    }

    /** `setPage` from the pagination control's `onChange`. */
    method SetPage(p: int)
      modifies this
      ensures page == p
    {
      page := p;
    }

    /** The rows the current page renders. */
    function Shown(s: seq<Standing>): View
      reads this
    {
      Render(s, page)
    }
  }
}
