/** routes/chat.js: the `/` chat turn behind the crisis gate, the
    `/message` endpoint that stores a message and runs the heuristic
    analysis pipeline (analysis record, real-time score upsert, daily
    insight), and the `/chat/history` view. The model's replies, the
    clock and the current day are parameters. */
module ChatRoutes {
  import opened Wrappers
  import opened Text
  import opened Records
  import opened Store
  import opened InsightRules
  import Safety
  import MoodDetection
  import Heuristic
  import HeuristicExamples
  import Aggregation
  import Sorting

  // ------------------------------------------------------ recent window

  /** A newest-first list of all of a user's rows, each stored under its
      own key, cut to `n`, is the window `find().sort().limit(n)` returns. */
  lemma PrefixIsWindow(scores: map<Key, DailyScore>, userId: UserId, n: nat, all: seq<DailyScore>)
    requires forall k :: k in scores ==> StoredScore(k, scores[k])
    requires NewestFirst(all) && |all| == |UserKeys(scores, userId)|
    requires forall k :: k in UserKeys(scores, userId) ==> scores[k] in all
    requires forall i :: 0 <= i < |all| ==>
               (userId, all[i].date) in scores && scores[(userId, all[i].date)] == all[i]
    ensures IsRecentWindow(scores, userId, n, if |all| < n then all else all[..n])
  {
    var w := if |all| < n then all else all[..n];
    forall k | k in UserKeys(scores, userId) && scores[k] !in w
      ensures forall i :: 0 <= i < |w| ==> LexLess(k.1, w[i].date)
    {
      var p :| 0 <= p < |all| && all[p] == scores[k];
      assert p >= |w|;
      assert scores[k].date == k.1;
    }
  }

  /** The state of the sorting loop: the keys taken so far are listed,
      newest first, each row under its own key. */
  ghost predicate Listed(scores: map<Key, DailyScore>, userId: UserId, todo: set<Key>, done: set<Key>,
                         all: seq<DailyScore>)
  {
    todo !! done && todo + done == UserKeys(scores, userId)
    && NewestFirst(all) && |all| == |done|
    && (forall k :: k in done ==> scores[k] in all)
    && (forall i :: 0 <= i < |all| ==>
          (userId, all[i].date) in done && (userId, all[i].date) in scores
          && scores[(userId, all[i].date)] == all[i])
  }

  /** A row not yet taken has a date no listed row has. */
  lemma DateNotTaken(scores: map<Key, DailyScore>, userId: UserId, todo: set<Key>, done: set<Key>,
                     all: seq<DailyScore>, k: Key)
    requires forall k' :: k' in scores ==> StoredScore(k', scores[k'])
    requires Listed(scores, userId, todo, done, all) && k in todo
    ensures forall i :: 0 <= i < |all| ==> all[i].date != scores[k].date
  {
    assert k in UserKeys(scores, userId);
    assert StoredScore(k, scores[k]);
  }

  /** After the insertion every listed row sits under its own key, which
      has now been taken. */
  lemma TakeKeyRows(scores: map<Key, DailyScore>, userId: UserId, todo: set<Key>, done: set<Key>,
                    all: seq<DailyScore>, k: Key, next: seq<DailyScore>)
    requires forall k' :: k' in scores ==> StoredScore(k', scores[k'])
    requires Listed(scores, userId, todo, done, all) && k in todo
    requires forall y :: y in next <==> y in all || y == scores[k]
    ensures forall i :: 0 <= i < |next| ==>
              (userId, next[i].date) in done + {k} && (userId, next[i].date) in scores
              && scores[(userId, next[i].date)] == next[i]
  {
    assert k in UserKeys(scores, userId);
    assert StoredScore(k, scores[k]);
    forall i | 0 <= i < |next|
      ensures (userId, next[i].date) in done + {k} && (userId, next[i].date) in scores
              && scores[(userId, next[i].date)] == next[i]
    {
      assert next[i] in next;
      if next[i] != scores[k] {
        var j :| 0 <= j < |all| && all[j] == next[i];
      }
    }
  }

  /** Taking one more key and inserting its row keeps the loop state. */
  lemma TakeKey(scores: map<Key, DailyScore>, userId: UserId, todo: set<Key>, done: set<Key>,
                all: seq<DailyScore>, k: Key, next: seq<DailyScore>)
    requires forall k' :: k' in scores ==> StoredScore(k', scores[k'])
    requires Listed(scores, userId, todo, done, all) && k in todo
    requires NewestFirst(next) && |next| == |all| + 1
    requires forall y :: y in next <==> y in all || y == scores[k]
    ensures Listed(scores, userId, todo - {k}, done + {k}, next)
  {
    TakeKeyRows(scores, userId, todo, done, all, k, next);
    forall k' | k' in done + {k} ensures scores[k'] in next {
      if k' != k {
        assert scores[k'] in all;
      }
    }
  }

  /** Every row of the user, put in date order one at a time. */
  method RowsNewestFirst(scores: map<Key, DailyScore>, userId: UserId) returns (all: seq<DailyScore>)
    requires forall k :: k in scores ==> StoredScore(k, scores[k])
    ensures NewestFirst(all) && |all| == |UserKeys(scores, userId)|
    ensures forall k :: k in UserKeys(scores, userId) ==> scores[k] in all
    ensures forall i :: 0 <= i < |all| ==>
              (userId, all[i].date) in scores && scores[(userId, all[i].date)] == all[i]
  {
    var todo := UserKeys(scores, userId);
    ghost var done: set<Key> := {};
    all := [];
    while todo != {}
      invariant Listed(scores, userId, todo, done, all)
      decreases |todo|
    {
      var k :| k in todo;
      DateNotTaken(scores, userId, todo, done, all, k);
      var next := InsertByDate(scores[k], all);
      TakeKey(scores, userId, todo, done, all, k, next);
      all := next;
      todo := todo - {k};
      done := done + {k};
    }
    ListedAll(scores, userId, done, all);
  }

  /** Once nothing is left to take, the listed rows are all of the user's. */
  lemma ListedAll(scores: map<Key, DailyScore>, userId: UserId, done: set<Key>, all: seq<DailyScore>)
    requires Listed(scores, userId, {}, done, all)
    ensures NewestFirst(all) && |all| == |UserKeys(scores, userId)|
    ensures forall k :: k in UserKeys(scores, userId) ==> scores[k] in all
    ensures forall i :: 0 <= i < |all| ==>
              (userId, all[i].date) in scores && scores[(userId, all[i].date)] == all[i]
  {
    assert done == UserKeys(scores, userId);
  }

  /** `MentalHealthScore.find({ userId }).sort({ date: -1 }).limit(n)`. */
  method RecentScores(db: Db, userId: UserId, n: nat) returns (w: seq<DailyScore>)
    requires db.Valid()
    ensures IsRecentWindow(db.scores, userId, n, w)
  {
    var all := RowsNewestFirst(db.scores, userId);
    PrefixIsWindow(db.scores, userId, n, all);
    w := if |all| < n then all else all[..n];
  }

  // ------------------------------------------------------ score upsert

  /** The stored row of a key, if any. */
  function ScoreAt(scores: map<Key, DailyScore>, k: Key): (r: Option<DailyScore>)
    ensures r.Some? <==> k in scores
    ensures r.Some? ==> r.value == scores[k]
  {
    if k in scores then Some(scores[k]) else None
  }

  /** `upsertDailyScore`: the row of (userId, today) counts one more
      message and takes the latest metrics and their overall; no other
      row and no other collection changes. */
  method UpsertDailyScore(db: Db, userId: UserId, today: Date, m: Aggregation.Metrics)
    requires db.Valid() && Aggregation.MetricsInRange(m)
    modifies db
    ensures db.Valid()
    ensures db.scores == old(db.scores)[(userId, today) :=
              Aggregation.RealtimeUpsert(ScoreAt(old(db.scores), (userId, today)), userId, today, m)]
    ensures db.messages == old(db.messages) && db.analyses == old(db.analyses)
    ensures db.chats == old(db.chats) && db.insights == old(db.insights)
  {
    var k := (userId, today);
    var prior := ScoreAt(db.scores, k);
    Aggregation.RealtimeUpsertStored(prior, k, m);
    db.PutScore(k, Aggregation.RealtimeUpsert(prior, userId, today, m));
  }

  // --------------------------------------------------------- insight

  /** `maybeGenerateDailyInsight`: nothing when today's insight exists or
      the user has no score row; otherwise the insight of the newest five
      rows, returned as `window`, is created. */
  method MaybeGenerateDailyInsight(db: Db, userId: UserId, today: Date)
    returns (created: bool, window: seq<DailyScore>)
    requires db.Valid()
    modifies db
    ensures db.Valid()
    ensures created <==> (userId, today) !in old(db.insights) && UserKeys(old(db.scores), userId) != {}
    ensures !created ==> db.insights == old(db.insights)
    ensures created ==> IsRecentWindow(old(db.scores), userId, WindowSize, window) && window != []
                        && db.insights == old(db.insights)[(userId, today) := InsightOf(userId, today, window)]
    ensures db.messages == old(db.messages) && db.analyses == old(db.analyses)
    ensures db.chats == old(db.chats) && db.scores == old(db.scores)
  {
    created, window := false, [];
    if (userId, today) in db.insights {
      return;
    }
    window := RecentScores(db, userId, WindowSize);
    if |window| == 0 {
      return;
    }
    db.PutInsight((userId, today), InsightOf(userId, today, window));
    created := true;
  }

  // ------------------------------------------------ heuristic pipeline

  /** `MessageAnalysis.create` on the record `analyzeMessage` builds from
      the scores as written: refused exactly when the mood passes 10, and
      otherwise the record the corrected pipeline stores as well. */
  function HeuristicAnalysis(id: MessageId, message: string, now: Timestamp)
    : (r: Result<Analysis, ValidationError>)
    ensures r.Err? <==> Heuristic.AnalyzeAsWritten(message).mood > 10
    ensures r.Ok? ==> Heuristic.InRange(Heuristic.AnalyzeAsWritten(message))
    ensures r.Ok? ==> r.value == CappedAnalysis(id, message, now)
    ensures r.Ok? ==> ValidAnalysis(r.value) && r.value.messageId == id && r.value.createdAt == now
  {
    Heuristic.AnalysisRecordAccepted(id, Heuristic.AnalyzeAsWritten(message), now);
    NewAnalysis(Heuristic.AnalysisRecord(id, Heuristic.AnalyzeAsWritten(message), now))
  }

  /** The corrected record: built from the capped scores, which `create`
      always accepts. */
  function CappedAnalysis(id: MessageId, message: string, now: Timestamp): (r: Analysis)
    ensures NewAnalysis(Heuristic.AnalysisRecord(id, Heuristic.Analyze(message), now)) == Ok(r)
    ensures ValidAnalysis(r) && r.messageId == id && r.createdAt == now
  {
    Heuristic.AnalysisRecordAccepted(id, Heuristic.Analyze(message), now);
    NewAnalysis(Heuristic.AnalysisRecord(id, Heuristic.Analyze(message), now)).value
  }

  /** The four scores of an analysis as the upsert receives them. */
  function MetricsOf(s: Heuristic.Scores): (r: Aggregation.Metrics)
    ensures Heuristic.InRange(s) ==> Aggregation.MetricsInRange(r)
  {
    Aggregation.Metrics(s.mood, s.anxiety, s.stress, s.energy)
  }

  /** A stored key is one of its user's keys. */
  lemma HasUserKey(scores: map<Key, DailyScore>, k: Key)
    requires k in scores
    ensures UserKeys(scores, k.0) != {}
  {
    assert k in UserKeys(scores, k.0);
  }

  /** The corrected first two steps: the capped record is created and
      today's score row upserted from the same scores. */
  method RecordCapped(db: Db, id: MessageId, chatMsg: ChatMessage, today: Date, now: Timestamp)
    returns (analysis: Analysis)
    requires db.Valid()
    modifies db
    ensures db.Valid()
    ensures analysis == CappedAnalysis(id, chatMsg.message, now)
    ensures db.analyses == old(db.analyses) + [analysis]
    ensures db.scores == old(db.scores)[(chatMsg.userId, today) :=
              Aggregation.RealtimeUpsert(ScoreAt(old(db.scores), (chatMsg.userId, today)), chatMsg.userId, today,
                                         MetricsOf(Heuristic.Analyze(chatMsg.message)))]
    ensures db.messages == old(db.messages) && db.chats == old(db.chats) && db.insights == old(db.insights)
  {
    analysis := CappedAnalysis(id, chatMsg.message, now);
    db.InsertAnalysis(analysis);
    UpsertDailyScore(db, chatMsg.userId, today, MetricsOf(Heuristic.Analyze(chatMsg.message)));
  }

  /** The corrected `analyzeMessage`: the capped analysis is stored, today's
      row upserted and today's insight created unless one exists; afterwards
      the user has both for today. */
  method AnalyzeCapped(db: Db, id: MessageId, chatMsg: ChatMessage, today: Date, now: Timestamp)
    returns (analysis: Analysis)
    requires db.Valid()
    modifies db
    ensures db.Valid()
    ensures analysis == CappedAnalysis(id, chatMsg.message, now)
    ensures db.analyses == old(db.analyses) + [analysis]
    ensures db.scores == old(db.scores)[(chatMsg.userId, today) :=
              Aggregation.RealtimeUpsert(ScoreAt(old(db.scores), (chatMsg.userId, today)), chatMsg.userId, today,
                                         MetricsOf(Heuristic.Analyze(chatMsg.message)))]
    ensures (chatMsg.userId, today) in db.scores && (chatMsg.userId, today) in db.insights
    ensures (chatMsg.userId, today) in old(db.insights) ==> db.insights == old(db.insights)
    ensures db.messages == old(db.messages) && db.chats == old(db.chats)
  {
    analysis := RecordCapped(db, id, chatMsg, today, now);
    HasUserKey(db.scores, (chatMsg.userId, today));
    var _, _ := MaybeGenerateDailyInsight(db, chatMsg.userId, today);
  }

  /** The first two steps of `analyzeMessage` as written: `create` either
      throws, and nothing is written, or stores the record, after which
      today's score row is upserted from the same scores. */
  method RecordHeuristic(db: Db, id: MessageId, chatMsg: ChatMessage, today: Date, now: Timestamp)
    returns (analysis: Result<Analysis, ValidationError>)
    requires db.Valid()
    modifies db
    ensures db.Valid()
    ensures analysis == HeuristicAnalysis(id, chatMsg.message, now)
    ensures analysis.Err? ==> db.analyses == old(db.analyses) && db.scores == old(db.scores)
    ensures analysis.Ok? ==>
              db.analyses == old(db.analyses) + [analysis.value]
              && db.scores == old(db.scores)[(chatMsg.userId, today) :=
                   Aggregation.RealtimeUpsert(ScoreAt(old(db.scores), (chatMsg.userId, today)), chatMsg.userId,
                                              today, MetricsOf(Heuristic.AnalyzeAsWritten(chatMsg.message)))]
    ensures db.messages == old(db.messages) && db.chats == old(db.chats) && db.insights == old(db.insights)
  {
    analysis := HeuristicAnalysis(id, chatMsg.message, now);
    if analysis.Err? {
      return;
    }
    var _ := RecordCapped(db, id, chatMsg, today, now);
  }

  /** `analyzeMessage(chatMsg)` for the stored message `id`, as written:
      when `create` throws, the error is only logged and neither the score
      upsert nor the insight runs; otherwise the analysis is stored, today's
      row upserted and today's insight created unless one exists. */
  method AnalyzeHeuristic(db: Db, id: MessageId, chatMsg: ChatMessage, today: Date, now: Timestamp)
    returns (analysis: Result<Analysis, ValidationError>)
    requires db.Valid()
    modifies db
    ensures db.Valid()
    ensures analysis == HeuristicAnalysis(id, chatMsg.message, now)
    ensures analysis.Err? ==>
              db.analyses == old(db.analyses) && db.scores == old(db.scores) && db.insights == old(db.insights)
    ensures analysis.Ok? ==>
              db.analyses == old(db.analyses) + [analysis.value]
              && db.scores == old(db.scores)[(chatMsg.userId, today) :=
                   Aggregation.RealtimeUpsert(ScoreAt(old(db.scores), (chatMsg.userId, today)), chatMsg.userId,
                                              today, MetricsOf(Heuristic.AnalyzeAsWritten(chatMsg.message)))]
              && (chatMsg.userId, today) in db.scores && (chatMsg.userId, today) in db.insights
              && ((chatMsg.userId, today) in old(db.insights) ==> db.insights == old(db.insights))
    ensures db.messages == old(db.messages) && db.chats == old(db.chats)
  {
    analysis := RecordHeuristic(db, id, chatMsg, today, now);
    if analysis.Err? {
      return;
    }
    HasUserKey(db.scores, (chatMsg.userId, today));
    var _, _ := MaybeGenerateDailyInsight(db, chatMsg.userId, today);
  }

  /** "happy calm relaxed grateful" is stored as given, and its analysis is
      refused: posted as a user message, it is saved and nothing else is. */
  lemma OverflowNotAnalysed(id: MessageId, now: Timestamp)
    ensures Trim(HeuristicExamples.Overflow) == HeuristicExamples.Overflow
    ensures HeuristicAnalysis(id, HeuristicExamples.Overflow, now).Err?
  {
    HeuristicExamples.OverflowExample();
    HeuristicExamples.OverflowTrimmed();
  }

  // ------------------------------------------------------------- POST /

  const CrisisMessage := "You're not alone. Please call 9152987821 (Suicide Prevention Helpline India)."
  const CrisisSteps: seq<string> := ["Try grounding exercise", "Talk to a trusted friend", "Call helpline"]
  const FallbackReply := "I'm here to help you. Please tell me more about how you're feeling."

  /** The outcomes of `POST /`: a JSON body, or an error handed to
      `next`, which answers no JSON of this route's own. */
  datatype ChatResponse =
    | ChatBadRequest(error: string)
    | Crisis(message: string, steps: seq<string>)
    | Answered(userMessage: string, reply: string, mood: Mood)
    | Forwarded

  /** What `POST /` answers: 400 without userId or message, the crisis
      payload whenever the text trips the gate (before either model is
      asked); otherwise the turn is saved, and the route answers with the
      detected mood and the model's reply or the fallback, unless the save
      throws (a user id that is no ObjectId, or a failing database), in
      which case the error goes to `next`. */
  function ChatAnswer(userId: UserId, message: string, moodReply: Option<string>,
                      modelReply: Option<string>, isObjectId: IdCast, saveFails: bool): (r: ChatResponse)
    ensures r.ChatBadRequest? <==> userId == "" || message == ""
    ensures r.Crisis? <==> userId != "" && message != "" && Safety.SafetyCheck(message)
    ensures r.Crisis? ==> r == Crisis(CrisisMessage, CrisisSteps)
    ensures r.Forwarded? <==> userId != "" && message != "" && !Safety.SafetyCheck(message)
                              && (!isObjectId(userId) || saveFails)
    ensures r.Answered? ==> r.userMessage == message
                            && r.mood == MoodDetection.DetectMood(message, moodReply)
                            && (modelReply.Some? ==> r.reply == modelReply.value)
                            && (modelReply.None? ==> r.reply == FallbackReply)
  {
    if userId == "" || message == "" then ChatBadRequest("userId & message required")
    else if Safety.SafetyCheck(message) then Crisis(CrisisMessage, CrisisSteps)
    else if !isObjectId(userId) || saveFails then Forwarded
    else Answered(message, modelReply.GetOr(FallbackReply), MoodDetection.DetectMood(message, moodReply))
  }

  /** `POST /`: a chat turn is saved exactly when the route answers with
      a reply; a crisis, a bad request or a failed save leaves the chats
      as they were. */
  method PostChat(db: Db, userId: UserId, message: string, moodReply: Option<string>,
                  modelReply: Option<string>, now: Timestamp, isObjectId: IdCast, saveFails: bool)
    returns (res: ChatResponse)
    requires db.Valid()
    modifies db
    ensures db.Valid()
    ensures res == ChatAnswer(userId, message, moodReply, modelReply, isObjectId, saveFails)
    ensures res.Answered? ==> db.chats == old(db.chats) + [ChatTurn(userId, message, res.reply, res.mood, now)]
    ensures !res.Answered? ==> db.chats == old(db.chats)
    ensures db.messages == old(db.messages) && db.analyses == old(db.analyses)
    ensures db.scores == old(db.scores) && db.insights == old(db.insights)
  {
    if userId == "" || message == "" {
      return ChatBadRequest("userId & message required");
    }
    if Safety.SafetyCheck(message) {
      return Crisis(CrisisMessage, CrisisSteps);
    }
    var mood := MoodDetection.DetectMood(message, moodReply);
    var reply: string;
    if modelReply.Some? {
      reply := modelReply.value;
    } else {
      reply := FallbackReply;
    }
    if !isObjectId(userId) || saveFails {
      return Forwarded;
    }
    db.InsertChat(ChatTurn(userId, message, reply, mood, now));
    res := Answered(message, reply, mood);
  }

  // ------------------------------------------------------ POST /message

  /** The JSON bodies of `POST /message`. */
  datatype MessageResponse =
    | MessageBadRequest(error: string)
    | Saved(messageId: MessageId, timestamp: Timestamp)
    | ServerError(reason: ValidationError)

  /** `POST /message`: 400 without userId, message or sender; 500 when the
      schema rejects the document, a user id that is no ObjectId included;
      otherwise the trimmed message is stored and, for a user message only,
      analysed. No crisis gate applies here. */
  method PostMessage(db: Db, userId: UserId, message: string, sender: string, today: Date,
                     now: Timestamp, isObjectId: IdCast) returns (res: MessageResponse)
    requires db.Valid()
    modifies db
    ensures db.Valid()
    ensures res.MessageBadRequest? <==> userId == "" || message == "" || sender == ""
    ensures res.ServerError? <==> userId != "" && message != "" && sender != ""
                                  && NewChatMessage(userId, message, sender, now, isObjectId).Err?
    ensures res.Saved? ==> res.messageId == |old(db.messages)| && res.timestamp == now
                           && db.messages == old(db.messages) + [NewChatMessage(userId, message, sender, now, isObjectId).value]
    ensures !res.Saved? ==> db.messages == old(db.messages)
    ensures !(res.Saved? && sender == "user") ==>
              db.analyses == old(db.analyses) && db.scores == old(db.scores) && db.insights == old(db.insights)
    ensures res.Saved? && sender == "user" && HeuristicAnalysis(res.messageId, Trim(message), now).Err? ==>
              db.analyses == old(db.analyses) && db.scores == old(db.scores) && db.insights == old(db.insights)
    ensures res.Saved? && sender == "user" && HeuristicAnalysis(res.messageId, Trim(message), now).Ok? ==>
              db.analyses == old(db.analyses) + [HeuristicAnalysis(res.messageId, Trim(message), now).value]
              && db.scores == old(db.scores)[(userId, today) :=
                   Aggregation.RealtimeUpsert(ScoreAt(old(db.scores), (userId, today)), userId, today,
                                              MetricsOf(Heuristic.AnalyzeAsWritten(Trim(message))))]
              && (userId, today) in db.scores && (userId, today) in db.insights
              && ((userId, today) in old(db.insights) ==> db.insights == old(db.insights))
    ensures db.chats == old(db.chats)
  {
    if userId == "" || message == "" || sender == "" {
      return MessageBadRequest("userId, message, sender required");
    }
    var created := NewChatMessage(userId, message, sender, now, isObjectId);
    if created.Err? {
      return ServerError(created.error);
    }
    var id := db.InsertMessage(created.value);
    if sender == "user" {
      var _ := AnalyzeHeuristic(db, id, created.value, today, now);
    }
    res := Saved(id, created.value.timestamp);
  }

  // ---------------------------------------------------- GET /chat/history

  /** `Math.min(Math.max(parseInt(days, 10) || fallback, 1), 90)`: a
      missing, unparsable or zero value means the fallback. */
  function ClampDays(param: Option<string>, fallback: int): (r: int)
    ensures 1 <= r <= 90
    ensures param.Some? && ParseInt(param.value).Some? && 1 <= ParseInt(param.value).value <= 90
            ==> r == ParseInt(param.value).value
    ensures (param.None? || ParseInt(param.value).None? || ParseInt(param.value) == Some(0))
            ==> r == (if fallback < 1 then 1 else if fallback > 90 then 90 else fallback)
  {
    var parsed := if param.Some? then ParseInt(param.value) else None;
    var d := if parsed.None? || parsed.value == 0 then fallback else parsed.value;
    if d < 1 then 1 else if d > 90 then 90 else d
  }

  /** Any number of days in range, written out, is taken as given. */
  lemma ClampDaysWritten(days: int, fallback: int)
    requires 1 <= days <= 90
    ensures ClampDays(Some(IntToString(days)), fallback) == days
  {
    ParseIntRoundTrip(days);
  }

  /** The user's messages stamped at or after `since`, with their ids, in
      store order. */
  function Recent(messages: seq<ChatMessage>, userId: UserId, since: Timestamp)
    : (r: seq<(MessageId, ChatMessage)>)
    ensures forall p :: p in r ==> p.0 < |messages| && messages[p.0] == p.1
                                   && p.1.userId == userId && p.1.timestamp >= since
    ensures forall i :: 0 <= i < |messages| && messages[i].userId == userId && messages[i].timestamp >= since
                        ==> (i, messages[i]) in r
  {
    if messages == [] then []
    else
      var last := |messages| - 1;
      var init := Recent(messages[..last], userId, since);
      if messages[last].userId == userId && messages[last].timestamp >= since
      then init + [(last, messages[last])]
      else init
  }

  /** The position of the last analysis stored for a message, or -1. */
  function LastAnalysisIndex(analyses: seq<Analysis>, id: MessageId): (r: int)
    ensures -1 <= r < |analyses|
    ensures r == -1 <==> forall i :: 0 <= i < |analyses| ==> analyses[i].messageId != id
    ensures r != -1 ==> analyses[r].messageId == id
                        && forall j :: r < j < |analyses| ==> analyses[j].messageId != id
  {
    if analyses == [] then -1
    else if analyses[|analyses| - 1].messageId == id then |analyses| - 1
    else LastAnalysisIndex(analyses[..|analyses| - 1], id)
  }

  /** The analysis the history shows with a message: the lookup object
      keeps the latest when several share a messageId, and null when
      there is none. */
  function LastAnalysis(analyses: seq<Analysis>, id: MessageId): (r: Option<Analysis>)
    ensures r.None? <==> forall i :: 0 <= i < |analyses| ==> analyses[i].messageId != id
    ensures r.Some? ==> r.value.messageId == id && r.value in analyses
  {
    var i := LastAnalysisIndex(analyses, id);
    if i == -1 then None else Some(analyses[i])
  }

  function Stamp(p: (MessageId, ChatMessage)): int {
    p.1.timestamp
  }

  /** One entry of the history: the message with its analysis or null. */
  datatype HistoryRow = HistoryRow(id: MessageId, message: ChatMessage, analysis: Option<Analysis>)

  function Attach(rows: seq<(MessageId, ChatMessage)>, analyses: seq<Analysis>): (r: seq<HistoryRow>)
    ensures |r| == |rows|
    ensures forall i :: 0 <= i < |rows| ==>
              r[i] == HistoryRow(rows[i].0, rows[i].1, LastAnalysis(analyses, rows[i].0))
  {
    if rows == [] then []
    else [HistoryRow(rows[0].0, rows[0].1, LastAnalysis(analyses, rows[0].0))] + Attach(rows[1..], analyses)
  }

  /** `since.setDate(since.getDate() - days)`, as whole days of
      milliseconds. */
  function Since(now: Timestamp, days: int): Timestamp {
    now - days * DayMillis
  }

  /** The history rows from `since` on, newest first. */
  function HistoryRows(messages: seq<ChatMessage>, analyses: seq<Analysis>, userId: UserId,
                       since: Timestamp): seq<HistoryRow>
  {
    Attach(Sorting.SortDesc(Recent(messages, userId, since), Stamp), analyses)
  }

  /** The rows come newest first. */
  lemma HistoryNewestFirst(messages: seq<ChatMessage>, analyses: seq<Analysis>, userId: UserId,
                           since: Timestamp)
    ensures var rows := HistoryRows(messages, analyses, userId, since);
            forall i, j :: 0 <= i < j < |rows| ==> rows[i].message.timestamp >= rows[j].message.timestamp
  {
    var sorted := Sorting.SortDesc(Recent(messages, userId, since), Stamp);
    var rows := Attach(sorted, analyses);
    forall i, j | 0 <= i < j < |rows|
      ensures rows[i].message.timestamp >= rows[j].message.timestamp
    {
      assert Stamp(sorted[i]) >= Stamp(sorted[j]);
    }
  }

  /** Every row is a message of the user from `since` on, shown with its
      latest analysis. */
  lemma HistorySound(messages: seq<ChatMessage>, analyses: seq<Analysis>, userId: UserId,
                     since: Timestamp)
    ensures var rows := HistoryRows(messages, analyses, userId, since);
            forall i :: 0 <= i < |rows| ==>
              rows[i].id < |messages| && messages[rows[i].id] == rows[i].message
              && rows[i].message.userId == userId && rows[i].message.timestamp >= since
              && rows[i].analysis == LastAnalysis(analyses, rows[i].id)
  {
    var selected := Recent(messages, userId, since);
    var sorted := Sorting.SortDesc(selected, Stamp);
    forall i | 0 <= i < |sorted| ensures sorted[i] in selected {
      assert sorted[i] in multiset(sorted);
    }
  }

  /** Every message of the user from `since` on has a row. */
  lemma HistoryComplete(messages: seq<ChatMessage>, analyses: seq<Analysis>, userId: UserId,
                        since: Timestamp)
    ensures var rows := HistoryRows(messages, analyses, userId, since);
            forall k :: 0 <= k < |messages| && messages[k].userId == userId && messages[k].timestamp >= since
                        ==> exists i :: 0 <= i < |rows| && rows[i].id == k
  {
    var rows := HistoryRows(messages, analyses, userId, since);
    forall k | 0 <= k < |messages| && messages[k].userId == userId && messages[k].timestamp >= since
      ensures exists i :: 0 <= i < |rows| && rows[i].id == k
    {
      var i := HistoryRowOf(messages, analyses, userId, since, k);
    }
  }

  /** The position of one message's row. */
  lemma HistoryRowOf(messages: seq<ChatMessage>, analyses: seq<Analysis>, userId: UserId,
                     since: Timestamp, k: nat) returns (i: nat)
    requires k < |messages| && messages[k].userId == userId && messages[k].timestamp >= since
    ensures var rows := HistoryRows(messages, analyses, userId, since);
            i < |rows| && rows[i].id == k
  {
    var selected := Recent(messages, userId, since);
    var sorted := Sorting.SortDesc(selected, Stamp);
    assert (k, messages[k]) in selected;
    assert (k, messages[k]) in multiset(sorted);
    i :| 0 <= i < |sorted| && sorted[i] == (k, messages[k]);
    var rows := Attach(sorted, analyses);
    assert rows[i].id == k;
  }

  /** The body of a successful history request. */
  datatype HistoryPage = HistoryPage(userId: UserId, rangeDays: int, count: nat, rows: seq<HistoryRow>)

  /** `GET /chat/history`: 400 without userId; otherwise the user's
      messages of the last `days` days (7 by default, clamped to 1-90),
      newest first, each with its latest analysis. */
  function History(messages: seq<ChatMessage>, analyses: seq<Analysis>, userId: UserId,
                   daysParam: Option<string>, now: Timestamp): (r: Result<HistoryPage, string>)
    ensures r.Err? <==> userId == ""
    ensures r.Ok? ==> r.value.userId == userId && r.value.rangeDays == ClampDays(daysParam, 7)
                      && r.value.count == |r.value.rows|
                      && r.value.rows == HistoryRows(messages, analyses, userId, Since(now, r.value.rangeDays))
  {
    if userId == "" then Err("userId required")
    else
      var days := ClampDays(daysParam, 7);
      var rows := HistoryRows(messages, analyses, userId, Since(now, days));
      Ok(HistoryPage(userId, days, |rows|, rows))
  }
}
