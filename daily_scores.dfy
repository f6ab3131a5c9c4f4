/** utils/dailyScores.js: the batch recomputation of one user's score row
    for one UTC day from every analysis of that day whose message belongs
    to the user. The UTC day of a timestamp (`toISOString().slice(0, 10)`)
    is a parameter. */
module DailyScores {
  import opened Wrappers
  import opened Records
  import opened Store
  import opened Aggregation

  /** The UTC calendar day of a timestamp, as YYYY-MM-DD. */
  type DayOf = Timestamp -> Date

  /** The analysis counts for `userId` on `day`: it was created inside that
      UTC day and its message exists and belongs to the user. */
  predicate OfUserOnDay(messages: seq<ChatMessage>, a: Analysis, userId: UserId, day: Date, dayOf: DayOf) {
    a.messageId < |messages| && messages[a.messageId].userId == userId && dayOf(a.createdAt) == day
  }

  /** `find` on the day's window, then `filter` on the message's owner,
      in store order. */
  function DayAnalyses(messages: seq<ChatMessage>, analyses: seq<Analysis>, userId: UserId, day: Date,
                       dayOf: DayOf): (r: seq<Analysis>)
    ensures |r| <= |analyses|
    ensures forall a :: a in r <==> a in analyses && OfUserOnDay(messages, a, userId, day, dayOf)
    ensures r == [] <==> forall i :: 0 <= i < |analyses| ==> !OfUserOnDay(messages, analyses[i], userId, day, dayOf)
    ensures (forall i :: 0 <= i < |analyses| ==> ValidAnalysis(analyses[i]))
            ==> forall i :: 0 <= i < |r| ==> ValidAnalysis(r[i])
  {
    if analyses == [] then []
    else
      var rest := DayAnalyses(messages, analyses[1..], userId, day, dayOf);
      assert forall i :: 1 <= i < |analyses| ==> analyses[i] == analyses[1..][i - 1];
      if OfUserOnDay(messages, analyses[0], userId, day, dayOf) then [analyses[0]] + rest else rest
  }

  /** `date || today`: an empty date means today. */
  function DayOrToday(date: Date, today: Date): (r: Date)
    ensures date != "" ==> r == date
    ensures date == "" ==> r == today
  {
    if date == "" then today else date
  }

  /** The score rows after `calculateDailyScore(userId, day)`: the row of
      (userId, day) is replaced by the batch score when there is one, and
      nothing changes otherwise. */
  function Recalculated(messages: seq<ChatMessage>, analyses: seq<Analysis>, scores: map<Key, DailyScore>,
                        userId: UserId, day: Date, dayOf: DayOf): (r: map<Key, DailyScore>)
    requires forall i :: 0 <= i < |analyses| ==> ValidAnalysis(analyses[i])
    ensures forall k :: k != (userId, day) ==> (k in r <==> k in scores) && (k in scores ==> r[k] == scores[k])
    ensures (userId, day) in r <==> (userId, day) in scores || DayAnalyses(messages, analyses, userId, day, dayOf) != []
    ensures DayAnalyses(messages, analyses, userId, day, dayOf) != [] ==>
              r[(userId, day)] == BatchScore(userId, day, DayAnalyses(messages, analyses, userId, day, dayOf)).value
  {
    var xs := DayAnalyses(messages, analyses, userId, day, dayOf);
    if xs == [] then scores else scores[(userId, day) := BatchScore(userId, day, xs).value]
  }

  /** The whole record is `$set`, so running the recomputation a second
      time over the same analyses changes nothing. */
  lemma RecalculateIdempotent(messages: seq<ChatMessage>, analyses: seq<Analysis>, scores: map<Key, DailyScore>,
                              userId: UserId, day: Date, dayOf: DayOf)
    requires forall i :: 0 <= i < |analyses| ==> ValidAnalysis(analyses[i])
    ensures var once := Recalculated(messages, analyses, scores, userId, day, dayOf);
            Recalculated(messages, analyses, once, userId, day, dayOf) == once
  {
    var xs := DayAnalyses(messages, analyses, userId, day, dayOf);
    if xs != [] {
      var row := BatchScore(userId, day, xs).value;
      var once := Recalculated(messages, analyses, scores, userId, day, dayOf);
      assert (userId, day) in once && once[(userId, day)] == row;
      assert Recalculated(messages, analyses, once, userId, day, dayOf) == once[(userId, day) := row];
      UpdateSame(once, (userId, day), row);
    }
  }

  lemma UpdateSame<K, V>(m: map<K, V>, k: K, v: V)
    requires k in m && m[k] == v
    ensures m[k := v] == m
  {
  }

  /** A day without a matching analysis leaves the rows alone, even when
      the user has messages that day. */
  lemma NoAnalysesNoRow(messages: seq<ChatMessage>, analyses: seq<Analysis>, scores: map<Key, DailyScore>,
                        userId: UserId, day: Date, dayOf: DayOf)
    requires forall i :: 0 <= i < |analyses| ==> ValidAnalysis(analyses[i])
    requires forall i :: 0 <= i < |analyses| ==> !OfUserOnDay(messages, analyses[i], userId, day, dayOf)
    ensures Recalculated(messages, analyses, scores, userId, day, dayOf) == scores
  {
  }

  /** `calculateDailyScore(userId, date)`: returns the batch score of the
      day (null when no analysis matches) and upserts it. */
  method CalculateDailyScore(db: Db, userId: UserId, date: Date, today: Date, dayOf: DayOf)
    returns (score: Option<DailyScore>)
    requires db.Valid()
    modifies db
    ensures db.Valid()
    ensures var day := DayOrToday(date, today);
            score == BatchScore(userId, day, DayAnalyses(old(db.messages), old(db.analyses), userId, day, dayOf))
            && db.scores == Recalculated(old(db.messages), old(db.analyses), old(db.scores), userId, day, dayOf)
    ensures score.Some? ==> score.value.messageCount > 0 && score.value.userId == userId
    ensures db.messages == old(db.messages) && db.analyses == old(db.analyses)
    ensures db.chats == old(db.chats) && db.insights == old(db.insights)
  {
    var day := DayOrToday(date, today);
    var filtered := DayAnalyses(db.messages, db.analyses, userId, day, dayOf);
    score := BatchScore(userId, day, filtered);
    if score.Some? {
      db.PutScore((userId, day), score.value);
    }
  }
}
