/** routes/insights.js: the mood tally over a user's latest chat turns,
    the chronological score graph, and the view of one day. The cache-hit
    path is left to the cache model; the UTC day of a timestamp is a
    parameter. */
module Insights {
  import opened Wrappers
  import opened Text
  import opened Records
  import opened Store
  import opened InsightRules
  import opened DailyScores
  import ChatRoutes
  import Sorting

  // -------------------------------------------------------- mood trends

  const TrendLimit: nat := 50

  function CreatedAt(c: ChatTurn): int {
    c.createdAt
  }

  /** The user's chat turns, in store order. */
  function UserChats(chats: seq<ChatTurn>, userId: UserId): (r: seq<ChatTurn>)
    ensures |r| <= |chats|
    ensures forall c :: c in r <==> c in chats && c.userId == userId
  {
    if chats == [] then []
    else
      var rest := UserChats(chats[1..], userId);
      assert forall c :: c in chats <==> c == chats[0] || c in chats[1..];
      if chats[0].userId == userId then [chats[0]] + rest else rest
  }

  /** `Chat.find({ userId }).sort({ createdAt: -1 }).limit(50)`. */
  function LatestChats(chats: seq<ChatTurn>, userId: UserId): (r: seq<ChatTurn>)
    ensures |r| == if |UserChats(chats, userId)| < TrendLimit then |UserChats(chats, userId)| else TrendLimit
    ensures forall c :: c in r ==> c in chats && c.userId == userId
    ensures Sorting.SortedDescBy(r, CreatedAt)
    ensures multiset(r) <= multiset(UserChats(chats, userId))
    ensures |UserChats(chats, userId)| <= TrendLimit ==> multiset(r) == multiset(UserChats(chats, userId))
  {
    var sorted := Sorting.SortDesc(UserChats(chats, userId), CreatedAt);
    assert forall c :: c in sorted ==> c in UserChats(chats, userId) by {
      forall c | c in sorted ensures c in UserChats(chats, userId) {
        assert c in multiset(sorted);
      }
    }
    if |sorted| <= TrendLimit then sorted
    else
      Sorting.PrefixMultiset(sorted, TrendLimit);
      sorted[..TrendLimit]
  }

  /** The turns kept are the newest: a turn of the user that is left out
      is no newer than any kept one. */
  lemma LatestChatsNewest(chats: seq<ChatTurn>, userId: UserId)
    ensures var r := LatestChats(chats, userId);
            forall c, d :: c in chats && c.userId == userId && c !in r && d in r ==> c.createdAt <= d.createdAt
  {
    var r := LatestChats(chats, userId);
    var sorted := Sorting.SortDesc(UserChats(chats, userId), CreatedAt);
    assert r == if |sorted| <= TrendLimit then sorted else sorted[..TrendLimit];
    forall c, d | c in chats && c.userId == userId && c !in r && d in r ensures c.createdAt <= d.createdAt {
      assert c in UserChats(chats, userId);
      assert c in multiset(UserChats(chats, userId));
      assert c in sorted;
      var i :| 0 <= i < |sorted| && sorted[i] == c;
      var j :| 0 <= j < |r| && r[j] == d;
      assert i >= |r|;
      assert CreatedAt(sorted[j]) >= CreatedAt(sorted[i]);
    }
  }

  /** How many of the turns carry the mood. */
  function MoodCount(chats: seq<ChatTurn>, m: Mood): (r: nat)
    ensures r <= |chats|
  {
    if chats == [] then 0 else (if chats[0].mood == m then 1 else 0) + MoodCount(chats[1..], m)
  }

  /** The `moodCounts` object: one key per mood label that occurs, with
      its number of turns. The schema's default fills a missing mood with
      neutral before the tally sees it. */
  function MoodCounts(chats: seq<ChatTurn>): (r: map<string, nat>)
    ensures forall m: Mood :: MoodLabel(m) in r <==> MoodCount(chats, m) > 0
    ensures forall m: Mood :: MoodLabel(m) in r ==> r[MoodLabel(m)] == MoodCount(chats, m)
    ensures forall l :: l in r ==> l in MoodLabels
  {
    var r := map l | l in MoodLabels && MoodOfLabel(l).Some? && MoodCount(chats, MoodOfLabel(l).value) > 0
                 :: MoodCount(chats, MoodOfLabel(l).value);
    assert forall m: Mood :: MoodOfLabel(MoodLabel(m)) == Some(m) && MoodLabel(m) in MoodLabels by {
      forall m: Mood ensures MoodOfLabel(MoodLabel(m)) == Some(m) && MoodLabel(m) in MoodLabels {
        MoodLabelRoundTrip(m);
      }
    }
    r
  }

  /** Every turn is counted under exactly one label. */
  lemma {:induction false} MoodCountsSum(chats: seq<ChatTurn>)
    ensures MoodCount(chats, Happy) + MoodCount(chats, Sad) + MoodCount(chats, Anxious)
            + MoodCount(chats, Stressed) + MoodCount(chats, Angry) + MoodCount(chats, Mood.Neutral) == |chats|
  {
    if chats != [] {
      MoodCountsSum(chats[1..]);
    }
  }

  /** The tally's entry for a label, 0 when the label is absent. */
  function Tally(counts: map<string, nat>, name: string): nat {
    if name in counts then counts[name] else 0
  }

  /** The values of `moodCounts` add up to the number of turns fetched. */
  lemma MoodCountsTotal(chats: seq<ChatTurn>)
    ensures var r := MoodCounts(chats);
            Tally(r, "happy") + Tally(r, "sad") + Tally(r, "anxious") + Tally(r, "stressed")
            + Tally(r, "angry") + Tally(r, "neutral") == |chats|
  {
    MoodCountsSum(chats);
    var r := MoodCounts(chats);
    assert Tally(r, "happy") == MoodCount(chats, Happy) by { assert MoodLabel(Happy) == "happy"; }
    assert Tally(r, "sad") == MoodCount(chats, Sad) by { assert MoodLabel(Sad) == "sad"; }
    assert Tally(r, "anxious") == MoodCount(chats, Anxious) by { assert MoodLabel(Anxious) == "anxious"; }
    assert Tally(r, "stressed") == MoodCount(chats, Stressed) by { assert MoodLabel(Stressed) == "stressed"; }
    assert Tally(r, "angry") == MoodCount(chats, Angry) by { assert MoodLabel(Angry) == "angry"; }
    assert Tally(r, "neutral") == MoodCount(chats, Mood.Neutral) by { assert MoodLabel(Mood.Neutral) == "neutral"; }
  }

  /** `GET /insights/mood-trends/:userId` on a cache miss: the tally of
      the user's latest 50 turns. */
  function MoodTrends(chats: seq<ChatTurn>, userId: UserId): (r: map<string, nat>)
    ensures forall l :: l in r ==> l in MoodLabels && r[l] > 0
  {
    MoodCounts(LatestChats(chats, userId))
  }

  // -------------------------------------------------------------- graph

  /** Reversing a newest-first list puts the dates in increasing order. */
  lemma ReverseIsChronological(w: seq<DailyScore>)
    requires NewestFirst(w)
    ensures forall i, j :: 0 <= i < j < |w| ==> LexLess(Sorting.Reverse(w)[i].date, Sorting.Reverse(w)[j].date)
  {
  }

  /** The seven parallel arrays of the graph. */
  datatype Graph = Graph(labels: seq<Date>, mood: seq<Option<real>>, anxiety: seq<Option<real>>,
                         stress: seq<Option<real>>, energy: seq<Option<real>>, overall: seq<Option<real>>,
                         messageCount: seq<int>)

  /** One entry per row in every array: the date, each metric or null
      when it is missing, and the message count. */
  function GraphOf(ordered: seq<DailyScore>): (g: Graph)
    ensures |g.labels| == |g.mood| == |g.anxiety| == |g.stress| == |g.energy| == |g.overall|
            == |g.messageCount| == |ordered|
    ensures forall i :: 0 <= i < |ordered| ==>
              g.labels[i] == ordered[i].date && g.mood[i] == ordered[i].mood
              && g.anxiety[i] == ordered[i].anxiety && g.stress[i] == ordered[i].stress
              && g.energy[i] == ordered[i].energy && g.overall[i] == ordered[i].overall
              && g.messageCount[i] == ordered[i].messageCount
  {
    if ordered == [] then Graph([], [], [], [], [], [], [])
    else
      var s := ordered[0];
      var g := GraphOf(ordered[1..]);
      Graph([s.date] + g.labels, [s.mood] + g.mood, [s.anxiety] + g.anxiety, [s.stress] + g.stress,
            [s.energy] + g.energy, [s.overall] + g.overall, [s.messageCount] + g.messageCount)
  }

  /** The body of a graph request. */
  datatype GraphPage = GraphPage(count: nat, scores: seq<DailyScore>, graph: Graph)

  /** `GET /mental-health/graphs`: 400 without userId; otherwise the
      newest `days` rows (30 by default, clamped to 1-90) in chronological
      order, with their graph. */
  method Graphs(db: Db, userId: UserId, daysParam: Option<string>) returns (res: Result<GraphPage, string>)
    requires db.Valid()
    ensures res.Err? <==> userId == ""
    ensures res.Ok? ==>
              var page := res.value;
              IsRecentWindow(db.scores, userId, ChatRoutes.ClampDays(daysParam, 30), Sorting.Reverse(page.scores))
              && (forall i, j :: 0 <= i < j < |page.scores| ==> LexLess(page.scores[i].date, page.scores[j].date))
              && page.count == |page.scores| && page.graph == GraphOf(page.scores)
  {
    if userId == "" {
      return Err("userId required");
    }
    var days := ChatRoutes.ClampDays(daysParam, 30);
    var newest := ChatRoutes.RecentScores(db, userId, days);
    var ordered := Sorting.Reverse(newest);
    Sorting.ReverseReverse(newest);
    ReverseIsChronological(newest);
    res := Ok(GraphPage(|ordered|, ordered, GraphOf(ordered)));
  }

  // ---------------------------------------------------------------- day


  /** `/^\d{4}-\d{2}-\d{2}$/`: four digits, a dash, two digits, a dash,
      two digits, and nothing else. */
  predicate IsDateShape(s: string) {
    |s| == 10 && s[4] == '-' && s[7] == '-'
    && forall i :: 0 <= i < 10 && i != 4 && i != 7 ==> IsDigit(s[i])
  }

  function DigitValue(c: char): int {
    c as int - '0' as int
  }

  /** The year, month and day written in a date of the right shape. */
  function YearPart(date: string): int
    requires IsDateShape(date)
  {
    DigitValue(date[0]) * 1000 + DigitValue(date[1]) * 100 + DigitValue(date[2]) * 10 + DigitValue(date[3])
  }

  function MonthPart(date: string): int
    requires IsDateShape(date)
  {
    DigitValue(date[5]) * 10 + DigitValue(date[6])
  }

  function DayPart(date: string): int
    requires IsDateShape(date)
  {
    DigitValue(date[8]) * 10 + DigitValue(date[9])
  }

  /** Whether `new Date(date + "T00:00:00.000Z")` is a valid date, for a
      text of the right shape. Node's date parser takes a month of 01-12
      and a day of 01-31 whatever the month (a 31 April rolls over into
      May); anything else is an Invalid Date, which the query on
      `timestamp` then fails to cast. */
  predicate IsDateValue(date: string)
    requires IsDateShape(date)
  {
    1 <= MonthPart(date) <= 12 && 1 <= DayPart(date) <= 31
  }

  /** The proleptic Gregorian leap-year rule that `Date` follows. */
  predicate IsLeapYear(y: int) {
    (y % 4 == 0 && y % 100 != 0) || y % 400 == 0
  }

  function DaysInMonth(y: int, m: int): (r: int)
    requires 1 <= m <= 12
    ensures 28 <= r <= 31
    ensures m == 12 ==> r == 31
  {
    if m == 2 then (if IsLeapYear(y) then 29 else 28)
    else if m == 4 || m == 6 || m == 9 || m == 11 then 30
    else 31
  }

  /** The days of year `y` before the first of month `m`. */
  function DaysBefore(y: int, m: int): int
    requires 1 <= m <= 13
  {
    if m == 1 then 0 else DaysBefore(y, m - 1) + DaysInMonth(y, m - 1)
  }

  /** A number below 100 written with two digits. */
  function TwoDigits(n: int): (r: string)
    requires 0 <= n < 100
    ensures |r| == 2 && IsDigit(r[0]) && IsDigit(r[1]) && DigitValue(r[0]) * 10 + DigitValue(r[1]) == n
  {
    [('0' as int + n / 10) as char, ('0' as int + n % 10) as char]
  }

  /** The UTC day on which `new Date(date + "T00:00:00.000Z")` falls: a
      day past the end of its month rolls over into the next month, as
      `Date`'s day arithmetic counts it. December has 31 days, so the year
      never changes. */
  function CalendarDay(date: string): (r: Date)
    requires IsDateShape(date) && IsDateValue(date)
    ensures IsDateShape(r) && IsDateValue(r)
    ensures YearPart(r) == YearPart(date)
    ensures DayPart(r) <= DaysInMonth(YearPart(r), MonthPart(r))
    ensures DaysBefore(YearPart(r), MonthPart(r)) + DayPart(r)
            == DaysBefore(YearPart(date), MonthPart(date)) + DayPart(date)
    ensures r == date <==> DayPart(date) <= DaysInMonth(YearPart(date), MonthPart(date))
  {
    var y, m, d := YearPart(date), MonthPart(date), DayPart(date);
    if d <= DaysInMonth(y, m) then date
    else
      var r := date[..5] + TwoDigits(m + 1) + "-" + TwoDigits(d - DaysInMonth(y, m));
      assert r[..4] == date[..4] && r[4] == '-' && r[7] == '-';
      assert r[5..7] == TwoDigits(m + 1) && r[8..] == TwoDigits(d - DaysInMonth(y, m));
      assert MonthPart(r) == m + 1 && MonthPart(r) != m;
      r
  }

  /** 31 April is 1 May. */
  lemma RollOverApril()
    ensures IsDateShape("2024-04-31") && IsDateValue("2024-04-31") && CalendarDay("2024-04-31") == "2024-05-01"
  {
    var s := "2024-04-31";
    assert YearPart(s) == 2024 && MonthPart(s) == 4 && DayPart(s) == 31;
    assert TwoDigits(5) == "05" && TwoDigits(1) == "01";
    assert s[..5] == "2024-";
  }

  /** In a common year, 30 February is 2 March. */
  lemma RollOverFebruary()
    ensures IsDateShape("2023-02-30") && IsDateValue("2023-02-30") && CalendarDay("2023-02-30") == "2023-03-02"
  {
    var s := "2023-02-30";
    assert YearPart(s) == 2023 && MonthPart(s) == 2 && DayPart(s) == 30;
    assert !IsLeapYear(2023);
    assert TwoDigits(3) == "03" && TwoDigits(2) == "02";
    assert s[..5] == "2023-";
  }

  /** In a leap year, 29 February is a day of its own. */
  lemma LeapDayStays()
    ensures IsDateShape("2024-02-29") && IsDateValue("2024-02-29") && CalendarDay("2024-02-29") == "2024-02-29"
  {
    var s := "2024-02-29";
    assert YearPart(s) == 2024 && MonthPart(s) == 2 && DayPart(s) == 29;
    assert IsLeapYear(2024);
  }

  /** The route's date test is on shape only: month 13 and day 45 pass it, and only
      the date conversion after it refuses them. */
  lemma ShapeOnly()
    ensures IsDateShape("2024-13-45") && !IsDateValue("2024-13-45")
    ensures IsDateShape("2024-05-17") && IsDateValue("2024-05-17")
    ensures !IsDateShape("2024-1-05")
  {
    var s := "2024-1-05";
    assert |s| == 9;
  }

  /** The user's messages inside the UTC day, in store order. */
  function DayMessages(messages: seq<ChatMessage>, userId: UserId, date: Date, dayOf: DayOf)
    : (r: seq<ChatMessage>)
    ensures forall m :: m in r <==> m in messages && m.userId == userId && dayOf(m.timestamp) == date
  {
    if messages == [] then []
    else
      var rest := DayMessages(messages[1..], userId, date, dayOf);
      assert forall m :: m in messages <==> m == messages[0] || m in messages[1..];
      if messages[0].userId == userId && dayOf(messages[0].timestamp) == date then [messages[0]] + rest else rest
  }

  function EarlierFirst(m: ChatMessage): int {
    -m.timestamp
  }

  /** The body of a day request. */
  datatype DayPage = DayPage(userId: UserId, date: Date, score: Option<DailyScore>, messageCount: nat,
                             messages: seq<ChatMessage>, insight: Option<Insight>)

  /** A refused day request: its status and error text. */
  datatype Failure = Failure(status: int, error: string)

  const DateCastFailed := "Cast to date failed for value \"Invalid Date\" at path \"timestamp\""

  /** `GET /mental-health/day/:date`: 400 without userId, then 400 when
      the date is not shaped YYYY-MM-DD, then 500 when it is no date at
      all; otherwise the score row and insight (or null) stored under the
      date as written, and the user's messages of the UTC day the date
      falls on, oldest first. For a day past the end of its month the two
      differ: the messages are those of the rolled-over day. */
  function DayView(messages: seq<ChatMessage>, scores: map<Key, DailyScore>, insights: map<Key, Insight>,
                   userId: UserId, date: Date, dayOf: DayOf): (r: Result<DayPage, Failure>)
    ensures userId == "" ==> r == Err(Failure(400, "userId required"))
    ensures userId != "" && !IsDateShape(date) ==> r == Err(Failure(400, "date must be YYYY-MM-DD"))
    ensures userId != "" && IsDateShape(date) && !IsDateValue(date) ==> r.Err? && r.error.status == 500
    ensures r.Ok? <==> userId != "" && IsDateShape(date) && IsDateValue(date)
    ensures r.Ok? ==>
              var page := r.value;
              page.userId == userId && page.date == date
              && page.score == ChatRoutes.ScoreAt(scores, (userId, date))
              && (page.insight.Some? <==> (userId, date) in insights)
              && (page.insight.Some? ==> page.insight.value == insights[(userId, date)])
              && page.messageCount == |page.messages|
              && multiset(page.messages) == multiset(DayMessages(messages, userId, CalendarDay(date), dayOf))
              && (forall i, j :: 0 <= i < j < |page.messages| ==> page.messages[i].timestamp <= page.messages[j].timestamp)
  {
    if userId == "" then Err(Failure(400, "userId required"))
    else if !IsDateShape(date) then Err(Failure(400, "date must be YYYY-MM-DD"))
    else if !IsDateValue(date) then Err(Failure(500, DateCastFailed))
    else
      var sorted := Sorting.SortDesc(DayMessages(messages, userId, CalendarDay(date), dayOf), EarlierFirst);
      assert forall i, j :: 0 <= i < j < |sorted| ==> EarlierFirst(sorted[i]) >= EarlierFirst(sorted[j]);
      var insight := if (userId, date) in insights then Some(insights[(userId, date)]) else None;
      Ok(DayPage(userId, date, ChatRoutes.ScoreAt(scores, (userId, date)), |sorted|, sorted, insight))
  }

  /** "2024-04-31" answers with the user's messages of 1 May, while the
      score row and insight are looked up under "2024-04-31". */
  lemma DayViewRollsOver(messages: seq<ChatMessage>, scores: map<Key, DailyScore>, insights: map<Key, Insight>,
                         userId: UserId, dayOf: DayOf)
    requires userId != ""
    ensures var r := DayView(messages, scores, insights, userId, "2024-04-31", dayOf);
            r.Ok? && r.value.score == ChatRoutes.ScoreAt(scores, (userId, "2024-04-31"))
            && multiset(r.value.messages) == multiset(DayMessages(messages, userId, "2024-05-01", dayOf))
  {
    RollOverApril();
  }
}
