/**
 * The /leaderboard command (discord_bot/src/commands/leaderboard.ts): the
 * players table ordered by one column, ten rows a page, and a Prev/Next
 * button pair that only the invoking user may press.
 *
 * The query result for the chosen column is given as `board`, the whole
 * ordered table; a page is its LIMIT 10 OFFSET (page - 1) * 10 slice.
 */
module Leaderboard {
  import opened Wrappers
  import opened Records

  /** `LIMIT 10`. */
  const PageSize: nat := 10

  /** The ORDER BY column: wins, captain_wins, or (mu - 3 * sigma). */
  datatype Column = WinsColumn | CaptainWinsColumn | RatingColumn

  /** The `sort` option, "mmr" when it is not given. */
  function SortOf(option: Option<string>): (sortBy: string)
    ensures option.Some? ==> sortBy == option.value
    ensures option.None? ==> sortBy == "mmr"
  {
    option.GetOr("mmr")
  }

  /** Any value but "wins" and "captain_wins" sorts by the conservative rating. */
  function ColumnOf(sortBy: string): (c: Column)
    ensures c == WinsColumn <==> sortBy == "wins"
    ensures c == CaptainWinsColumn <==> sortBy == "captain_wins"
    ensures c == RatingColumn <==> sortBy != "wins" && sortBy != "captain_wins"
  {
    if sortBy == "wins" then WinsColumn
    else if sortBy == "captain_wins" then CaptainWinsColumn
    else RatingColumn
  }

  /**
   * One row of the SELECT: the name, the rating pair and the four counters,
   * each of which may be NULL.
   */
  datatype BoardRow = BoardRow(username: Option<string>, mu: Option<real>, sigma: Option<real>,
                               wins: Option<int>, losses: Option<int>,
                               captainWins: Option<int>, captainLosses: Option<int>)

  /** A sort key: SQL NULL or a number. */
  datatype Key = Null | Num(n: real)

  /** The column's value for a row; `mu - 3 * sigma` is NULL when either is. */
  function KeyOf(row: BoardRow, c: Column): (k: Key)
    ensures c == WinsColumn ==> (k.Null? <==> row.wins.None?) && (k.Num? ==> k.n == row.wins.value as real)
    ensures c == CaptainWinsColumn ==>
      (k.Null? <==> row.captainWins.None?) && (k.Num? ==> k.n == row.captainWins.value as real)
    ensures c == RatingColumn ==> (k.Null? <==> row.mu.None? || row.sigma.None?)
    ensures c == RatingColumn && k.Num? ==> k.n == row.mu.value - 3.0 * row.sigma.value
  {
    match c
    case WinsColumn => if row.wins.Some? then Num(row.wins.value as real) else Null
    case CaptainWinsColumn => if row.captainWins.Some? then Num(row.captainWins.value as real) else Null
    case RatingColumn =>
      if row.mu.Some? && row.sigma.Some? then Num(row.mu.value - 3.0 * row.sigma.value) else Null
  }

  /** `DESC` order as PostgreSQL applies it: NULLs first, then larger values first. */
  predicate AtOrBefore(a: Key, b: Key) {
    a.Null? || (b.Num? && a.n >= b.n)
  }

  /** The query's ORDER BY: every row at or before every later row. */
  predicate Ordered(board: seq<BoardRow>, c: Column) {
    forall i, j :: 0 <= i < j < |board| ==> AtOrBefore(KeyOf(board[i], c), KeyOf(board[j], c))
  }

  /** `(page - 1) * limit`. */
  function Offset(page: int): (o: int)
    ensures page >= 1 ==> o >= 0
    ensures page == 1 <==> o == 0
  {
    (page - 1) * PageSize
  }

  /** The rank shown on the i-th row of a page: `(page - 1) * limit + i + 1`. */
  function Rank(page: int, i: int): (r: int)
    ensures page >= 1 && i >= 0 ==> r >= 1
    ensures 0 <= i < PageSize ==> Offset(page) < r <= Offset(page) + PageSize
  {
    Offset(page) + i + 1
  }

  /**
   * `LIMIT 10 OFFSET (page - 1) * 10`: at most ten rows, row i of the page is
   * the row ranked Rank(page, i), and a short page is the last one.
   */
  function Page(board: seq<BoardRow>, page: int): (rows: seq<BoardRow>)
    requires page >= 1
    ensures |rows| <= PageSize
    ensures forall i :: 0 <= i < |rows| ==> 0 <= Rank(page, i) - 1 < |board| && rows[i] == board[Rank(page, i) - 1]
    ensures rows == [] <==> |board| <= Offset(page)
    ensures |rows| < PageSize <==> |board| < Offset(page) + PageSize
  {
    var lo := if Offset(page) < |board| then Offset(page) else |board|;
    var hi := if Offset(page) + PageSize < |board| then Offset(page) + PageSize else |board|;
    board[lo..hi]
  }

  /** Pages 1 to n shown one after the other. */
  function PagesUpTo(board: seq<BoardRow>, n: nat): seq<BoardRow> {
    if n == 0 then [] else PagesUpTo(board, n - 1) + Page(board, n)
  }

  /** The pages tile the board: pages 1 to n are its first n * 10 rows, no row skipped or repeated. */
  lemma {:induction false} PagesTileBoard(board: seq<BoardRow>, n: nat)
    ensures PagesUpTo(board, n) == board[..if n * PageSize < |board| then n * PageSize else |board|]
  {
    if n > 0 {
      PagesTileBoard(board, n - 1);
      var lo := if (n - 1) * PageSize < |board| then (n - 1) * PageSize else |board|;
      var hi := if n * PageSize < |board| then n * PageSize else |board|;
      assert Page(board, n) == board[lo..hi];
      assert board[..lo] + board[lo..hi] == board[..hi];
    }
  }

  /** On an ordered board a row on an earlier page sorts at or before every row on a later page. */
  lemma EarlierPagesSortFirst(board: seq<BoardRow>, c: Column, p: int, q: int, i: int, j: int)
    requires Ordered(board, c) && 1 <= p < q
    requires 0 <= i < |Page(board, p)| && 0 <= j < |Page(board, q)|
    ensures AtOrBefore(KeyOf(Page(board, p)[i], c), KeyOf(Page(board, q)[j], c))
  {
    assert Rank(p, i) < Rank(q, j) by {
      assert Offset(p) + PageSize <= Offset(q);
    }
  }

  /** Once a page is empty, every later page is empty too. */
  lemma EmptyStaysEmpty(board: seq<BoardRow>, p: int, q: int)
    requires 1 <= p <= q && Page(board, p) == []
    ensures Page(board, q) == []
  {
    assert Offset(p) <= Offset(q);
  }

  /** A short page is the last non-empty one; a full page followed by an empty one ends the board exactly. */
  lemma ShortPageIsLast(board: seq<BoardRow>, p: int)
    requires p >= 1
    ensures |Page(board, p)| < PageSize ==> Page(board, p + 1) == []
    ensures |Page(board, p)| == PageSize && Page(board, p + 1) == [] ==> |board| == p * PageSize
  {
    assert Offset(p + 1) == Offset(p) + PageSize;
  }

  /** One line of the embed: the rank, the name, and the two counters the sort shows. */
  datatype Line = Line(rank: int, username: string, won: int, lost: int)

  /** `row.discord_username ?? "Unknown Player"`. */
  function ShownName(row: BoardRow): (name: string)
    ensures row.username.Some? ==> name == row.username.value
    ensures row.username.None? ==> name == "Unknown Player"
  {
    row.username.GetOr("Unknown Player")
  }

  /** A row whose mu or sigma is NULL: `row.mu.toFixed(1)` throws a TypeError on it. */
  predicate MissingRating(row: BoardRow) {
    row.mu.None? || row.sigma.None?
  }

  /**
   * renderLeaderboard's lines: ranks continue from the previous pages; the
   * "mmr" and "wins" sorts show wins and losses, every other sort the
   * captain record. On the "mmr" sort a row without mu or sigma makes the
   * `map` throw, so there are no lines at all (`None`).
   */
  function Lines(rows: seq<BoardRow>, page: int, sortBy: string): (lines: Option<seq<Line>>)
    ensures lines.None? <==> sortBy == "mmr" && exists i :: 0 <= i < |rows| && MissingRating(rows[i])
    ensures lines.Some? ==>
      && |lines.value| == |rows|
      && forall i :: 0 <= i < |rows| ==>
        && lines.value[i].rank == Rank(page, i)
        && lines.value[i].username == ShownName(rows[i])
        && (sortBy == "mmr" || sortBy == "wins" ==>
              lines.value[i].won == OrZero(rows[i].wins) && lines.value[i].lost == OrZero(rows[i].losses))
        && (sortBy != "mmr" && sortBy != "wins" ==>
              lines.value[i].won == OrZero(rows[i].captainWins) && lines.value[i].lost == OrZero(rows[i].captainLosses))
    decreases |rows|
  {
    if |rows| == 0 then Some([])
    else
      var init := rows[..|rows| - 1];
      var r := rows[|rows| - 1];
      assert forall i :: 0 <= i < |init| ==> init[i] == rows[i];
      match Lines(init, page, sortBy)
      case None => None
      case Some(ls) =>
        if sortBy == "mmr" && MissingRating(r) then None
        else
          var line := if sortBy == "mmr" || sortBy == "wins" then Line(Rank(page, |rows| - 1), ShownName(r), OrZero(r.wins), OrZero(r.losses))
                      else Line(Rank(page, |rows| - 1), ShownName(r), OrZero(r.captainWins), OrZero(r.captainLosses));
          Some(ls + [line])
  }

  /** The page a reply shows and the state of its two buttons. */
  datatype View = View(page: int, lines: seq<Line>, prevDisabled: bool, nextDisabled: bool)

  datatype ClickReply =
    | NotYours          // "You can't control this leaderboard."
    | NoMorePlayers     // "No more players on this page."
    | PageShown(view: View)
    | ClickCrashed      // renderLeaderboard threw: no reply is sent

  /** One leaderboard message and its button collector; `page` is the closure's `let page`. */
  class LeaderboardView {
    const invoker: PlayerId
    const sortBy: string
    var page: int

    ghost predicate Valid()
      reads this
    {
      page >= 1
    }

    /** The page is the first one or holds rows of the board. */
    ghost predicate OnBoard(board: seq<BoardRow>)
      reads this
      requires Valid()
    {
      page == 1 || Page(board, page) != []
    }

    constructor (invoker: PlayerId, sortBy: string)
      ensures this.invoker == invoker && this.sortBy == sortBy
      ensures page == 1 && Valid()
    {
      this.invoker := invoker;
      this.sortBy := sortBy;
      page := 1;
    }

    /**
     * The view of the current page: Prev off on page 1, Next off on a short
     * page; none when rendering the page's lines throws.
     */
    function Render(board: seq<BoardRow>): (v: Option<View>)
      reads this
      requires Valid()
      ensures v.None? <==> Lines(Page(board, page), page, sortBy).None?
      ensures v.Some? ==>
        && v.value.page == page
        && Some(v.value.lines) == Lines(Page(board, page), page, sortBy)
        && (v.value.prevDisabled <==> page == 1)
        && (v.value.nextDisabled <==> |board| < Offset(page) + PageSize)
    {
      var rows := Page(board, page);
      match Lines(rows, page, sortBy)
      case None => None
      case Some(lines) => Some(View(page, lines, page == 1, |rows| < PageSize))
    }

    /**
     * The collector's handler for one button press. Someone else's press
     * changes nothing. Prev moves back unless on page 1, Next moves forward;
     * when the new page is empty the press is answered with "No more
     * players" and a Next is undone. When rendering the new page throws, the
     * page has still moved and no reply is sent.
     */
    method Click(user: PlayerId, customId: string, board: seq<BoardRow>) returns (reply: ClickReply)
      requires Valid()
      modifies this
      ensures Valid()
      ensures user != invoker ==> reply == NotYours && page == old(page)
      ensures user == invoker ==>
        var target := if customId == "lb_prev" && old(page) > 1 then old(page) - 1
                      else if customId == "lb_next" then old(page) + 1 else old(page);
        && (reply == NoMorePlayers <==> Page(board, target) == [])
        && (reply == NoMorePlayers ==> page == (if customId == "lb_next" then old(page) else target))
        && (reply != NoMorePlayers ==> page == target)
        && (reply != NoMorePlayers && Render(board).None? ==> reply == ClickCrashed)
        && (reply != NoMorePlayers && Render(board).Some? ==> reply == PageShown(Render(board).value))
      ensures old(OnBoard(board)) ==> OnBoard(board)
      ensures reply.PageShown? ==> Page(board, page) != []
    {
      if user != invoker {
        return NotYours;
      }
      ghost var before := page;
      if customId == "lb_prev" && page > 1 {
        page := page - 1;
      } else if customId == "lb_next" {
        page := page + 1;
      }
      var rows := Page(board, page);
      if |rows| == 0 {
        if customId == "lb_next" {
          page := page - 1;
        }
        reply := NoMorePlayers;
      } else {
        var view := Render(board);
        if view.None? {
          reply := ClickCrashed;
        } else {
          reply := PageShown(view.value);
        }
      }
      if page != before && page > 1 && Page(board, page) == [] {
        EmptyStaysEmpty(board, page, before);
      }
    }
  }
}
