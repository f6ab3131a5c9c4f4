/** routes/chatHistory.js: paging through a user's stored conversation
    log and deleting one session of it. The log is a sequence of rows; the
    SQL query is the filter, order, offset and limit it stands for. Query
    parameters arrive as numbers; a non-numeric one is not modelled. */
module ChatHistory {
  import opened Wrappers
  import opened Records
  import Sorting

  datatype HistoryRow = HistoryRow(userId: UserId, sessionId: string, message: string, response: string,
                                   timestamp: Timestamp)

  const DefaultLimit: int := 50
  const DefaultPage: int := 1

  // -------------------------------------------------------------- filter

  /** The where-object: always the user, the session only when one is
      given. */
  datatype Where = Where(userId: UserId, sessionId: Option<string>)

  /** `{ userId }`, with `sessionId` added when it is truthy. */
  function WhereOf(userId: UserId, sessionId: Option<string>): (w: Where)
    ensures w.userId == userId
    ensures w.sessionId.Some? <==> sessionId.Some? && sessionId.value != ""
    ensures w.sessionId.Some? ==> w.sessionId == sessionId
  {
    if sessionId.Some? && sessionId.value != "" then Where(userId, sessionId) else Where(userId, None)
  }

  predicate Matches(row: HistoryRow, w: Where) {
    row.userId == w.userId && (w.sessionId.Some? ==> row.sessionId == w.sessionId.value)
  }

  /** The rows the where-object selects, in store order. */
  function Select(rows: seq<HistoryRow>, w: Where): (r: seq<HistoryRow>)
    ensures |r| <= |rows|
    ensures forall x :: x in r <==> x in rows && Matches(x, w)
  {
    if rows == [] then []
    else
      var rest := Select(rows[1..], w);
      assert forall x :: x in rows <==> x == rows[0] || x in rows[1..];
      if Matches(rows[0], w) then [rows[0]] + rest else rest
  }

  /** Without a session the query returns every row of the user, and
      never a row of another user. */
  lemma SelectScopedToUser(rows: seq<HistoryRow>, userId: UserId, sessionId: Option<string>)
    ensures forall x :: x in Select(rows, WhereOf(userId, sessionId)) ==> x.userId == userId
    ensures (sessionId.None? || sessionId == Some(""))
            ==> forall x :: x in rows && x.userId == userId ==> x in Select(rows, WhereOf(userId, sessionId))
  {
  }

  // ---------------------------------------------------------- arithmetic

  /** `(page - 1) * limit`. */
  function Offset(page: int, limit: int): (r: int)
    ensures page == 1 ==> r == 0
    ensures limit >= 0 && page >= 1 ==> r >= 0
  {
    (page - 1) * limit
  }

  /** Consecutive pages start `limit` rows apart. */
  lemma OffsetStep(page: int, limit: int)
    ensures Offset(page + 1, limit) == Offset(page, limit) + limit
  {
  }

  /** `Math.ceil(count / limit)`; a zero limit divides to Infinity or NaN,
      which the JSON reply writes as null. */
  function TotalPages(count: nat, limit: nat): (r: Option<nat>)
    ensures r.None? <==> limit == 0
    ensures r.Some? ==> r.value * limit >= count
    ensures r.Some? && count > 0 ==> (r.value - 1) * limit < count
    ensures r.Some? && count == 0 ==> r.value == 0
  {
    if limit == 0 then None
    else
      var q := (count + limit - 1) / limit;
      CeilBounds(count, limit, q);
      Some(q)
  }

  lemma CeilBounds(count: nat, limit: nat, q: int)
    requires limit > 0 && q == (count + limit - 1) / limit
    ensures q >= 0 && q * limit >= count && (count > 0 ==> (q - 1) * limit < count)
  {
    var m := (count + limit - 1) % limit;
    assert q * limit + m == count + limit - 1;
    assert 0 <= m < limit;
  }

  // ---------------------------------------------------------------- page

  function Stamp(r: HistoryRow): int {
    r.timestamp
  }

  /** `OFFSET offset LIMIT limit` over an ordered result. */
  function Window<T>(s: seq<T>, offset: nat, limit: nat): (r: seq<T>)
    ensures |r| <= limit
    ensures offset >= |s| ==> r == []
    ensures offset < |s| ==> r == s[offset..if offset + limit < |s| then offset + limit else |s|]
  {
    if offset >= |s| then []
    else if offset + limit < |s| then s[offset..offset + limit]
    else s[offset..]
  }

  /** Row `i` of the ordered result is on page `i / limit + 1`, at
      position `i % limit`. */
  lemma RowOnItsPage<T>(s: seq<T>, limit: nat, i: nat)
    requires limit > 0 && i < |s|
    ensures var page := i / limit + 1;
            Offset(page, limit) >= 0 && i % limit < |Window(s, Offset(page, limit), limit)|
            && Window(s, Offset(page, limit), limit)[i % limit] == s[i]
  {
    var page := i / limit + 1;
    assert Offset(page, limit) == (i / limit) * limit;
    assert (i / limit) * limit + i % limit == i;
  }

  datatype HistoryPage = HistoryPage(data: seq<HistoryRow>, totalCount: nat, currentPage: int,
                                     totalPages: Option<nat>)

  /** The page reply for a valid offset and limit: the selected rows
      newest first, cut to the window, with their total. */
  function PageOf(selected: seq<HistoryRow>, page: int, offset: nat, limit: nat): (p: HistoryPage)
    ensures |p.data| <= limit
    ensures forall x :: x in p.data ==> x in selected
    ensures Sorting.SortedDescBy(p.data, Stamp)
    ensures p.data == Window(Sorting.SortDesc(selected, Stamp), offset, limit)
    ensures p.totalCount == |selected| && p.currentPage == page && p.totalPages == TotalPages(|selected|, limit)
  {
    var ordered := Sorting.SortDesc(selected, Stamp);
    var data := Window(ordered, offset, limit);
    assert forall x :: x in data ==> x in ordered;
    assert forall x :: x in ordered ==> x in selected by {
      forall x | x in ordered ensures x in selected {
        assert x in multiset(ordered);
      }
    }
    HistoryPage(data, |selected|, page, TotalPages(|selected|, limit))
  }

  /** `GET /history`: the page of the user's rows (of one session, when
      given) with the defaults limit 50 and page 1. A negative limit or
      offset is refused by the database and answered with 500. */
  function History(rows: seq<HistoryRow>, userId: UserId, sessionId: Option<string>, limitParam: Option<int>,
                   pageParam: Option<int>): (r: Result<HistoryPage, string>)
    ensures var limit := limitParam.GetOr(DefaultLimit);
            var page := pageParam.GetOr(DefaultPage);
            r.Err? <==> limit < 0 || Offset(page, limit) < 0
    ensures r.Ok? ==>
              var limit := limitParam.GetOr(DefaultLimit);
              var page := pageParam.GetOr(DefaultPage);
              limit >= 0 && Offset(page, limit) >= 0
              && r.value == PageOf(Select(rows, WhereOf(userId, sessionId)), page, Offset(page, limit), limit)
  {
    var limit := limitParam.GetOr(DefaultLimit);
    var page := pageParam.GetOr(DefaultPage);
    var offset := Offset(page, limit);
    if limit < 0 || offset < 0 then Err("Failed to fetch chat history")
    else Ok(PageOf(Select(rows, WhereOf(userId, sessionId)), page, offset, limit))
  }

  /** Every row shown belongs to the user, and to the session when one is
      given; the page never exceeds the limit. */
  lemma HistoryScoped(rows: seq<HistoryRow>, userId: UserId, sessionId: Option<string>, limitParam: Option<int>,
                      pageParam: Option<int>)
    ensures var r := History(rows, userId, sessionId, limitParam, pageParam);
            r.Ok? ==> |r.value.data| <= limitParam.GetOr(DefaultLimit)
                      && (forall x :: x in r.value.data ==>
                            x in rows && x.userId == userId
                            && (sessionId.Some? && sessionId.value != "" ==> x.sessionId == sessionId.value))
  {
  }

  /** The defaults: page 1 of 50 starts at the newest row. */
  lemma DefaultFirstPage(rows: seq<HistoryRow>, userId: UserId, sessionId: Option<string>)
    ensures var r := History(rows, userId, sessionId, None, None);
            r.Ok? && r.value.currentPage == 1
            && r.value.data == Window(Sorting.SortDesc(Select(rows, WhereOf(userId, sessionId)), Stamp), 0, 50)
  {
  }

  // -------------------------------------------------------------- delete

  /** `DELETE /session/:sessionId`: removes the rows of that session that
      belong to the requesting user; every other row stays, in order. */
  function DeleteSession(rows: seq<HistoryRow>, userId: UserId, sessionId: string): (r: seq<HistoryRow>)
    ensures forall x :: x in r <==> x in rows && !(x.userId == userId && x.sessionId == sessionId)
    ensures |r| <= |rows|
  {
    if rows == [] then []
    else
      var rest := DeleteSession(rows[1..], userId, sessionId);
      assert forall x :: x in rows <==> x == rows[0] || x in rows[1..];
      if rows[0].userId == userId && rows[0].sessionId == sessionId then rest else [rows[0]] + rest
  }

  /** Another user's rows under the same session id are untouched. */
  lemma DeleteSparesOthers(rows: seq<HistoryRow>, userId: UserId, sessionId: string, other: UserId)
    requires other != userId
    ensures Select(DeleteSession(rows, userId, sessionId), Where(other, None)) == Select(rows, Where(other, None))
  {
    if rows != [] {
      DeleteSparesOthers(rows[1..], userId, sessionId, other);
    }
  }
}
