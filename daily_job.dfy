/** cron/dailyScoresCron.js: the nightly job that recomputes yesterday's
    score row of every user who sent a message that day. Only score rows
    are written; no insight is generated. The schedule is left to the
    caller; the clock, the UTC day function and the users whose
    recomputation throws are parameters. */
module DailyJob {
  import opened Records
  import opened Store
  import opened Aggregation
  import opened DailyScores

  /** `new Date(Date.now() - 24h).toISOString().slice(0, 10)`. */
  function Yesterday(now: Timestamp, dayOf: DayOf): Date {
    dayOf(now - DayMillis)
  }

  /** The user sent some message inside the UTC day. */
  predicate ActiveOn(messages: seq<ChatMessage>, u: UserId, day: Date, dayOf: DayOf) {
    exists i :: 0 <= i < |messages| && messages[i].userId == u && dayOf(messages[i].timestamp) == day
  }

  /** `ChatMessage.distinct('userId', { timestamp in the day })`: every
      active user once, in order of first message. */
  function ActiveUsers(messages: seq<ChatMessage>, day: Date, dayOf: DayOf): (r: seq<UserId>)
    ensures forall i, j :: 0 <= i < j < |r| ==> r[i] != r[j]
    ensures forall u :: u in r <==> ActiveOn(messages, u, day, dayOf)
  {
    if messages == [] then []
    else
      var last := |messages| - 1;
      var init := ActiveUsers(messages[..last], day, dayOf);
      assert forall u :: ActiveOn(messages[..last], u, day, dayOf) ==> ActiveOn(messages, u, day, dayOf) by {
        forall u | ActiveOn(messages[..last], u, day, dayOf) ensures ActiveOn(messages, u, day, dayOf) {
          var i :| 0 <= i < last && messages[..last][i].userId == u && dayOf(messages[..last][i].timestamp) == day;
          assert messages[i] == messages[..last][i];
        }
      }
      assert forall u :: ActiveOn(messages, u, day, dayOf) ==>
               ActiveOn(messages[..last], u, day, dayOf)
               || (messages[last].userId == u && dayOf(messages[last].timestamp) == day) by {
        forall u | ActiveOn(messages, u, day, dayOf)
          ensures ActiveOn(messages[..last], u, day, dayOf)
                  || (messages[last].userId == u && dayOf(messages[last].timestamp) == day)
        {
          var i :| 0 <= i < |messages| && messages[i].userId == u && dayOf(messages[i].timestamp) == day;
          if i < last {
            assert messages[..last][i] == messages[i];
          }
        }
      }
      if dayOf(messages[last].timestamp) == day && messages[last].userId !in init
      then init + [messages[last].userId]
      else init
  }

  /** The score rows once the loop has handled `users` in order: each
      user's recomputation is applied unless it throws. */
  function JobScores(messages: seq<ChatMessage>, analyses: seq<Analysis>, scores: map<Key, DailyScore>,
                     users: seq<UserId>, day: Date, dayOf: DayOf, failing: set<UserId>): map<Key, DailyScore>
    requires forall i :: 0 <= i < |analyses| ==> ValidAnalysis(analyses[i])
  {
    if users == [] then scores
    else
      var before := JobScores(messages, analyses, scores, users[..|users| - 1], day, dayOf, failing);
      var u := users[|users| - 1];
      if u in failing then before else Recalculated(messages, analyses, before, u, day, dayOf)
  }

  /** The row of a handled user for the day holds the batch score when
      one of the user's analyses falls in the day and the recomputation
      did not throw. */
  lemma {:induction false} JobScoresHandled(messages: seq<ChatMessage>, analyses: seq<Analysis>,
                                            scores: map<Key, DailyScore>, users: seq<UserId>, day: Date,
                                            dayOf: DayOf, failing: set<UserId>)
    requires forall i :: 0 <= i < |analyses| ==> ValidAnalysis(analyses[i])
    ensures var r := JobScores(messages, analyses, scores, users, day, dayOf, failing);
            forall k: Key :: k.1 == day && k.0 in users && k.0 !in failing
                        && DayAnalyses(messages, analyses, k.0, day, dayOf) != []
                        ==> k in r && r[k] == BatchScore(k.0, day, DayAnalyses(messages, analyses, k.0, day, dayOf)).value
  {
    if users != [] {
      var init := users[..|users| - 1];
      JobScoresHandled(messages, analyses, scores, init, day, dayOf, failing);
      assert forall u :: u in users <==> u in init || u == users[|users| - 1] by {
        assert users == init + [users[|users| - 1]];
      }
    }
  }

  /** Every other row is as it was. */
  lemma {:induction false} JobScoresOthers(messages: seq<ChatMessage>, analyses: seq<Analysis>,
                                           scores: map<Key, DailyScore>, users: seq<UserId>, day: Date,
                                           dayOf: DayOf, failing: set<UserId>)
    requires forall i :: 0 <= i < |analyses| ==> ValidAnalysis(analyses[i])
    ensures var r := JobScores(messages, analyses, scores, users, day, dayOf, failing);
            forall k: Key :: !(k.1 == day && k.0 in users && k.0 !in failing
                          && DayAnalyses(messages, analyses, k.0, day, dayOf) != [])
                        ==> (k in r <==> k in scores) && (k in scores ==> r[k] == scores[k])
  {
    if users != [] {
      var init := users[..|users| - 1];
      JobScoresOthers(messages, analyses, scores, init, day, dayOf, failing);
      assert forall u :: u in users <==> u in init || u == users[|users| - 1] by {
        assert users == init + [users[|users| - 1]];
      }
    }
  }

  /** What the job leaves, row by row: the row of a handled user for the
      day holds the batch score when one of the user's analyses falls in
      the day and the recomputation did not throw; every other row is as
      it was. A failing user does not stop the others. */
  lemma JobScoresEffect(messages: seq<ChatMessage>, analyses: seq<Analysis>,
                        scores: map<Key, DailyScore>, users: seq<UserId>, day: Date,
                        dayOf: DayOf, failing: set<UserId>)
    requires forall i :: 0 <= i < |analyses| ==> ValidAnalysis(analyses[i])
    ensures var r := JobScores(messages, analyses, scores, users, day, dayOf, failing);
            forall k: Key :: k.1 == day && k.0 in users && k.0 !in failing
                        && DayAnalyses(messages, analyses, k.0, day, dayOf) != []
                        ==> k in r && r[k] == BatchScore(k.0, day, DayAnalyses(messages, analyses, k.0, day, dayOf)).value
    ensures var r := JobScores(messages, analyses, scores, users, day, dayOf, failing);
            forall k: Key :: !(k.1 == day && k.0 in users && k.0 !in failing
                          && DayAnalyses(messages, analyses, k.0, day, dayOf) != [])
                        ==> (k in r <==> k in scores) && (k in scores ==> r[k] == scores[k])
  {
    JobScoresHandled(messages, analyses, scores, users, day, dayOf, failing);
    JobScoresOthers(messages, analyses, scores, users, day, dayOf, failing);
  }

  /** One more user handled: recomputed unless that user fails. */
  lemma JobScoresStep(messages: seq<ChatMessage>, analyses: seq<Analysis>, scores: map<Key, DailyScore>,
                      users: seq<UserId>, i: nat, day: Date, dayOf: DayOf, failing: set<UserId>)
    requires forall j :: 0 <= j < |analyses| ==> ValidAnalysis(analyses[j])
    requires i < |users|
    ensures var before := JobScores(messages, analyses, scores, users[..i], day, dayOf, failing);
            JobScores(messages, analyses, scores, users[..i + 1], day, dayOf, failing)
            == if users[i] in failing then before else Recalculated(messages, analyses, before, users[i], day, dayOf)
  {
    assert users[..i + 1][..i] == users[..i];
  }

  /** `runDailyJob`: computes yesterday's date, then runs
      `calculateDailyScore` once for every active user, in order, carrying
      on past a user whose recomputation throws. */
  method RunDailyJob(db: Db, now: Timestamp, dayOf: DayOf, failing: set<UserId>)
    returns (day: Date, users: seq<UserId>)
    requires db.Valid()
    modifies db
    ensures db.Valid()
    ensures day == Yesterday(now, dayOf)
    ensures users == ActiveUsers(old(db.messages), day, dayOf)
    ensures db.scores == JobScores(old(db.messages), old(db.analyses), old(db.scores), users, day, dayOf, failing)
    ensures db.messages == old(db.messages) && db.analyses == old(db.analyses)
    ensures db.chats == old(db.chats) && db.insights == old(db.insights)
  {
    day := Yesterday(now, dayOf);
    users := ActiveUsers(db.messages, day, dayOf);
    if |users| == 0 {
      return;
    }
    var i := 0;
    while i < |users|
      invariant 0 <= i <= |users|
      invariant db.Valid()
      invariant db.messages == old(db.messages) && db.analyses == old(db.analyses)
      invariant db.chats == old(db.chats) && db.insights == old(db.insights)
      invariant db.scores == JobScores(old(db.messages), old(db.analyses), old(db.scores), users[..i], day, dayOf, failing)
    {
      JobScoresStep(db.messages, db.analyses, old(db.scores), users, i, day, dayOf, failing);
      if users[i] !in failing {
        var _ := CalculateDailyScore(db, users[i], day, day, dayOf);
      }
      i := i + 1;
    }
    assert users[..i] == users;
  }
}
