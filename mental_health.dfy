/** routes/mentalhealth.js: the authenticated counselling chat (prompt
    built from the user's last turns), the analytics over a chat log
    (topics, mood words, progress, recommendations) and the streamed
    reply assembled from newline-delimited JSON chunks. The model server,
    the chat-log store, `JSON.parse`, the clock and session-id generation
    are parameters. */
module MentalHealth {
  import opened Wrappers
  import opened Text
  import opened Json
  import opened Records
  import Sorting
  import Aggregation

  /** A row of the chat log as `getChatHistory` returns it, newest first. */
  datatype LogEntry = LogEntry(message: string, response: string, timestamp: Timestamp)

  // ------------------------------------------------------- context prompt

  const FirstMessageIntro :=
    "This is the user's first message. Please provide welcoming, personalized mental health support.\n\nUser message: "
  const ContextIntro := "Previous conversation context:\n"
  const CurrentMessageLead := "\n\nCurrent message: "
  const ContextRequest :=
    "\n\nPlease respond considering the conversation history and provide personalized mental health support."

  /** One earlier turn: `User: …\nAssistant: …`. */
  function Block(e: LogEntry): string {
    "User: " + e.message + "\nAssistant: " + e.response
  }

  function Blocks(entries: seq<LogEntry>): (r: seq<string>)
    ensures |r| == |entries| && forall i :: 0 <= i < |entries| ==> r[i] == Block(entries[i])
  {
    if entries == [] then [] else [Block(entries[0])] + Blocks(entries[1..])
  }

  /** The earlier turns oldest first, separated by a blank line. */
  function Transcript(history: seq<LogEntry>): string {
    Join(Blocks(Sorting.Reverse(history)), "\n\n")
  }

  /** A single earlier turn is its own block. */
  lemma TranscriptOfOne(e: LogEntry)
    ensures Transcript([e]) == Block(e)
  {
    assert Sorting.Reverse([e]) == [e];
  }

  /** The oldest turn (last in the newest-first log) opens the transcript,
      followed by a blank line and the newer turns. */
  lemma TranscriptOldestFirst(history: seq<LogEntry>, oldest: LogEntry)
    requires history != []
    ensures Transcript(history + [oldest]) == Block(oldest) + "\n\n" + Transcript(history)
  {
    Sorting.ReverseSnoc(history, oldest);
    var rest := Blocks(Sorting.Reverse(history));
    assert Blocks(Sorting.Reverse(history + [oldest])) == [Block(oldest)] + rest;
    assert ([Block(oldest)] + rest)[1..] == rest;
  }

  /** The prompt sent to the model: the first-message framing without
      history, the transcript framing otherwise. */
  function ContextPrompt(message: string, history: seq<LogEntry>): (r: string)
    ensures history == [] ==> r == FirstMessageIntro + message
    ensures history != [] ==> r == ContextIntro + Transcript(history) + CurrentMessageLead + message + ContextRequest
  {
    if history == [] then FirstMessageIntro + message
    else ContextIntro + Transcript(history) + CurrentMessageLead + message + ContextRequest
  }

  // ----------------------------------------------------------------- chat

  /** The answer of `POST /chat`. */
  datatype ChatReply =
    | MessageRequired
    | ModelUnreachable
    | Replied(response: string, sessionId: string, hasContext: bool, contextMessages: nat)

  /** The reply and the (message, response) pair the chat log keeps, if
      the save went through. */
  datatype ChatOutcome = ChatOutcome(reply: ChatReply, saved: Option<(string, string)>)

  /** `POST /chat`: 400 without a message; the prompt goes to the model,
      whose failure is a 500 with nothing saved; otherwise the exchange is
      saved, a failing save is swallowed, and the reply reports how many
      earlier turns were used. */
  function Chat(message: string, sessionId: string, history: seq<LogEntry>, model: string -> Option<string>,
                saveFails: bool, freshId: string): (r: ChatOutcome)
    ensures r.reply == MessageRequired <==> message == ""
    ensures r.reply == ModelUnreachable <==> message != "" && model(ContextPrompt(message, history)).None?
    ensures r.reply.Replied? ==>
              r.reply.response == model(ContextPrompt(message, history)).value
              && r.reply.contextMessages == |history|
              && (r.reply.hasContext <==> r.reply.contextMessages > 0)
              && r.reply.sessionId == (if sessionId != "" then sessionId else freshId)
    ensures r.saved.Some? <==> r.reply.Replied? && !saveFails
    ensures r.saved.Some? ==> r.saved.value == (message, r.reply.response)
  {
    if message == "" then ChatOutcome(MessageRequired, None)
    else
      var answer := model(ContextPrompt(message, history));
      if answer.None? then ChatOutcome(ModelUnreachable, None)
      else
        var reply := Replied(answer.value, if sessionId != "" then sessionId else freshId,
                             |history| > 0, |history|);
        ChatOutcome(reply, if saveFails then None else Some((message, answer.value)))
  }

  /** A failing save does not change what the user is told. */
  lemma SaveFailureSwallowed(message: string, sessionId: string, history: seq<LogEntry>,
                             model: string -> Option<string>, freshId: string)
    ensures Chat(message, sessionId, history, model, true, freshId).reply
            == Chat(message, sessionId, history, model, false, freshId).reply
  {
  }

  // --------------------------------------------------------------- topics

  const TopicKeywords: seq<string> :=
    ["stress", "anxiety", "depression", "work", "family", "sleep", "mood", "tired", "worried"]

  /** At most this many topics are reported. */
  const TopicLimit: nat := 5

  datatype Topic = Topic(topic: string, mentions: int)

  function Mentions(t: Topic): int {
    t.mentions
  }

  /** How many messages mention the keyword, ignoring case: a message
      counts once however often it repeats the word. */
  function MentionCount(history: seq<LogEntry>, keyword: string): (r: nat)
    ensures r <= |history|
  {
    if history == [] then 0
    else (if Contains(Lower(history[0].message), Lower(keyword)) then 1 else 0) + MentionCount(history[1..], keyword)
  }

  /** The keywords that are mentioned at all, with their counts, in
      keyword order. */
  function Found(history: seq<LogEntry>, keywords: seq<string>): (r: seq<Topic>)
    ensures forall t :: t in r ==> t.topic in keywords && t.mentions == MentionCount(history, t.topic)
                                    && 0 < t.mentions <= |history|
    ensures forall k :: k in keywords && MentionCount(history, k) > 0 ==> Topic(k, MentionCount(history, k)) in r
  {
    if keywords == [] then []
    else
      var last := keywords[|keywords| - 1];
      var init := Found(history, keywords[..|keywords| - 1]);
      assert forall k :: k in keywords <==> k in keywords[..|keywords| - 1] || k == last by {
        assert keywords == keywords[..|keywords| - 1] + [last];
      }
      var c := MentionCount(history, last);
      if c > 0 then init + [Topic(last, c)] else init
  }

  /** The first `n` of a list, or all of it. */
  function Take<T>(s: seq<T>, n: nat): (r: seq<T>)
    ensures |r| == (if |s| < n then |s| else n) && r == s[..|r|]
  {
    if |s| <= n then s else s[..n]
  }

  /** `extractCommonTopics`: the mentioned keywords, most mentioned first,
      cut to five. */
  function TopicsOf(history: seq<LogEntry>): seq<Topic> {
    Take(Sorting.SortDesc(Found(history, TopicKeywords), Mentions), TopicLimit)
  }

  /** An element of a list sorted by decreasing key that did not make the
      cut is no larger than any element kept. */
  lemma CutKeepsLargest<T>(s: seq<T>, key: T -> int, n: nat, x: T)
    requires Sorting.SortedDescBy(s, key)
    requires x in s && x !in Take(s, n)
    ensures |s| > n && forall i :: 0 <= i < n ==> key(s[i]) >= key(x)
  {
    var j :| 0 <= j < |s| && s[j] == x;
  }

  /** The cut of a sorted copy keeps at most `n` elements of the input,
      still sorted. */
  lemma TopSound<T>(s: seq<T>, key: T -> int, n: nat)
    ensures var top := Take(Sorting.SortDesc(s, key), n);
            |top| <= n && (forall x :: x in top ==> x in s) && Sorting.SortedDescBy(top, key)
  {
    var sorted := Sorting.SortDesc(s, key);
    forall x | x in Take(sorted, n) ensures x in s {
      assert x in sorted;
      assert x in multiset(sorted);
    }
  }

  /** An element of the input missing from the cut of its sorted copy
      leaves a full cut of elements at least as large. */
  lemma TopComplete<T>(s: seq<T>, key: T -> int, n: nat, x: T)
    requires x in s && x !in Take(Sorting.SortDesc(s, key), n)
    ensures var top := Take(Sorting.SortDesc(s, key), n);
            |top| == n && forall i :: 0 <= i < n ==> key(top[i]) >= key(x)
  {
    var sorted := Sorting.SortDesc(s, key);
    assert x in multiset(s);
    assert x in sorted;
    CutKeepsLargest(sorted, key, n, x);
  }

  /** At most five topics, each a keyword with its message count, most
      mentioned first. */
  lemma TopicsOfSound(history: seq<LogEntry>)
    ensures var top := TopicsOf(history);
            |top| <= TopicLimit
            && (forall t :: t in top ==> t.topic in TopicKeywords && t.mentions == MentionCount(history, t.topic)
                                         && 0 < t.mentions <= |history|)
            && Sorting.SortedDescBy(top, Mentions)
  {
    TopSound(Found(history, TopicKeywords), Mentions, TopicLimit);
  }

  /** A mentioned keyword is missing only when five topics mentioned at
      least as often are shown. */
  lemma TopicsOfComplete(history: seq<LogEntry>, k: string)
    requires k in TopicKeywords && MentionCount(history, k) > 0
    requires Topic(k, MentionCount(history, k)) !in TopicsOf(history)
    ensures |TopicsOf(history)| == TopicLimit
    ensures forall i :: 0 <= i < TopicLimit ==> TopicsOf(history)[i].mentions >= MentionCount(history, k)
  {
    var found := Found(history, TopicKeywords);
    var x := Topic(k, MentionCount(history, k));
    assert x in found;
    TopComplete(found, Mentions, TopicLimit, x);
  }

  /** `extractCommonTopics`: pushes every mentioned keyword in keyword
      order, then sorts by mentions and keeps five. */
  method ExtractCommonTopics(history: seq<LogEntry>) returns (top: seq<Topic>)
    ensures top == TopicsOf(history)
  {
    var topics: seq<Topic> := [];
    var i := 0;
    while i < |TopicKeywords|
      invariant 0 <= i <= |TopicKeywords|
      invariant topics == Found(history, TopicKeywords[..i])
    {
      assert TopicKeywords[..i + 1][..i] == TopicKeywords[..i];
      var count := MentionCount(history, TopicKeywords[i]);
      if count > 0 {
        topics := topics + [Topic(TopicKeywords[i], count)];
      }
      i := i + 1;
    }
    assert TopicKeywords[..i] == TopicKeywords;
    top := Take(Sorting.SortDesc(topics, Mentions), TopicLimit);
  }

  // ----------------------------------------------------------- mood words

  const PositiveWords: seq<string> := ["happy", "good", "better", "great", "excellent", "fine"]
  const NegativeWords: seq<string> := ["sad", "bad", "worse", "terrible", "awful", "stressed"]

  /** How many of the words occur in the (lower-cased) message. */
  function WordHits(message: string, words: seq<string>): (r: nat)
    ensures r <= |words|
  {
    if words == [] then 0 else (if Contains(message, words[0]) then 1 else 0) + WordHits(message, words[1..])
  }

  /** The hits of every message added up. */
  function HitTotal(history: seq<LogEntry>, words: seq<string>): nat {
    if history == [] then 0
    else HitTotal(history[..|history| - 1], words) + WordHits(Lower(history[|history| - 1].message), words)
  }

  /** Each message adds at most one hit per lexicon word. */
  lemma {:induction false} HitTotalBound(history: seq<LogEntry>, words: seq<string>)
    ensures HitTotal(history, words) <= |history| * |words|
  {
    if history != [] {
      HitTotalBound(history[..|history| - 1], words);
      assert (|history| - 1) * |words| + |words| == |history| * |words|;
    }
  }

  /** `{ positive, negative, ratio }`; `ratio` is the positive share in
      percent, `None` standing for the literal "0%" given when no word
      matched. */
  datatype MoodTally = MoodTally(positive: nat, negative: nat, ratio: Option<real>)

  function Ratio(positive: nat, negative: nat): (r: Option<real>)
    ensures r.None? <==> positive + negative == 0
    ensures r.Some? ==> 0.0 <= r.value <= 100.0
    ensures r.Some? ==> r.value * (positive + negative) as real == 100.0 * positive as real
  {
    if positive + negative > 0 then
      var share := positive as real / (positive + negative) as real;
      assert share <= 1.0 by {
        assert positive as real <= (positive + negative) as real;
      }
      Some(share * 100.0)
    else None
  }

  /** Only a log with no lexicon word at all reads "0%"; a log with only
      negative words reads 0 percent. */
  lemma RatioZeroCases()
    ensures Ratio(0, 0).None?
    ensures Ratio(0, 3) == Some(0.0)
    ensures Ratio(1, 3) == Some(25.0)
  {
  }

  function MoodTallyOf(history: seq<LogEntry>): MoodTally {
    var p := HitTotal(history, PositiveWords);
    var n := HitTotal(history, NegativeWords);
    MoodTally(p, n, Ratio(p, n))
  }

  /** `extractMoodKeywords`: one pass over the log accumulating both
      counters. */
  method ExtractMoodKeywords(history: seq<LogEntry>) returns (t: MoodTally)
    ensures t == MoodTallyOf(history)
  {
    var positive, negative := 0, 0;
    var i := 0;
    while i < |history|
      invariant 0 <= i <= |history|
      invariant positive == HitTotal(history[..i], PositiveWords)
      invariant negative == HitTotal(history[..i], NegativeWords)
    {
      assert history[..i + 1][..i] == history[..i];
      var message := Lower(history[i].message);
      positive := positive + WordHits(message, PositiveWords);
      negative := negative + WordHits(message, NegativeWords);
      i := i + 1;
    }
    assert history[..i] == history;
    t := MoodTally(positive, negative, Ratio(positive, negative));
  }

  // ------------------------------------------------------------- progress

  datatype Stage = GettingStarted | BuildingHabits | MakingProgress | ExperiencedUser

  function StageName(s: Stage): string {
    match s
    case GettingStarted => "getting_started"
    case BuildingHabits => "building_habits"
    case MakingProgress => "making_progress"
    case ExperiencedUser => "experienced_user"
  }

  function StageRank(s: Stage): nat {
    match s
    case GettingStarted => 0
    case BuildingHabits => 1
    case MakingProgress => 2
    case ExperiencedUser => 3
  }

  datatype Progress = Progress(status: Stage, sessions: nat)

  /** `calculateProgress`: tiers at 5, 15 and 30 sessions. */
  function CalculateProgress(history: seq<LogEntry>): (p: Progress)
    ensures p.sessions == |history|
    ensures p.status == GettingStarted <==> |history| < 5
    ensures p.status == BuildingHabits <==> 5 <= |history| < 15
    ensures p.status == MakingProgress <==> 15 <= |history| < 30
    ensures p.status == ExperiencedUser <==> 30 <= |history|
  {
    var n := |history|;
    if n < 5 then Progress(GettingStarted, n)
    else if n < 15 then Progress(BuildingHabits, n)
    else if n < 30 then Progress(MakingProgress, n)
    else Progress(ExperiencedUser, n)
  }

  /** More sessions never mean a lower tier. */
  lemma ProgressMonotone(shorter: seq<LogEntry>, longer: seq<LogEntry>)
    requires |shorter| <= |longer|
    ensures StageRank(CalculateProgress(shorter).status) <= StageRank(CalculateProgress(longer).status)
  {
  }

  // ------------------------------------------------------ recommendations

  const WelcomeAdvice := "Welcome! Start by sharing how you're feeling today."
  const EngageAdvice := "Keep engaging! Regular conversations help build better mental health habits."
  const StressAdvice :=
    "I notice you've mentioned stress recently. Consider trying breathing exercises or mindfulness."
  const ReturnAdvice :=
    "It's been a while since our last chat. Regular check-ins can help maintain your mental wellness."
  const TodayAdvice := "Great job staying engaged with your mental health today!"

  /** How many of the newest turns are searched for stress words. */
  const RecentWindow: nat := 7

  predicate MentionsStress(e: LogEntry) {
    Contains(Lower(e.message), "stress") || Contains(Lower(e.message), "anxious")
  }

  /** `recentChats.some(...)`. */
  function AnyStress(entries: seq<LogEntry>): (r: bool)
    ensures r <==> exists i :: 0 <= i < |entries| && MentionsStress(entries[i])
  {
    if entries == [] then false
    else
      var rest := AnyStress(entries[1..]);
      assert forall i :: 1 <= i < |entries| ==> entries[i] == entries[1..][i - 1];
      MentionsStress(entries[0]) || rest
  }

  /** `Math.floor((now - last) / day)`; with a positive divisor, Dafny's
      division already rounds down. */
  function DaysSince(now: Timestamp, last: Timestamp): int {
    (now - last) / DayMillis
  }

  /** `generateRecommendations(history, user)` with the clock as `now`;
      the user record is not read. */
  function RecommendationsFor(history: seq<LogEntry>, now: Timestamp): seq<string> {
    if |history| == 0 then [WelcomeAdvice]
    else if |history| < 5 then [EngageAdvice]
    else
      var days := DaysSince(now, history[0].timestamp);
      (if AnyStress(Take(history, RecentWindow)) then [StressAdvice] else [])
      + (if days > 7 then [ReturnAdvice] else if days == 0 then [TodayAdvice] else [])
  }

  lemma AdviceDistinct()
    ensures StressAdvice != ReturnAdvice && StressAdvice != TodayAdvice
  {
    assert |StressAdvice| != |ReturnAdvice| && |StressAdvice| != |TodayAdvice|;
  }

  /** One item for a short log; for five turns or more, at most two: the
      stress note exactly when one of the seven newest turns mentions
      stress or anxiety, then a note on the gap since the newest turn. */
  lemma RecommendationsSpec(history: seq<LogEntry>, now: Timestamp)
    ensures var r := RecommendationsFor(history, now);
            (|history| < 5 ==> |r| == 1)
            && (|history| == 0 ==> r == [WelcomeAdvice])
            && (0 < |history| < 5 ==> r == [EngageAdvice])
            && (|history| >= 5 ==>
                  |r| <= 2
                  && (StressAdvice in r <==> exists i :: 0 <= i < |history| && i < RecentWindow
                                                         && MentionsStress(history[i]))
                  && (ReturnAdvice in r <==> DaysSince(now, history[0].timestamp) > 7)
                  && (TodayAdvice in r <==> DaysSince(now, history[0].timestamp) == 0))
  {
    AdviceDistinct();
    if |history| >= 5 {
      var w := Take(history, RecentWindow);
      assert forall i :: 0 <= i < |w| ==> w[i] == history[i];
    }
  }

  /** `generateRecommendations`: pushes onto an empty list. */
  method GenerateRecommendations(history: seq<LogEntry>, now: Timestamp) returns (recs: seq<string>)
    ensures recs == RecommendationsFor(history, now)
  {
    recs := [];
    if |history| == 0 {
      recs := recs + [WelcomeAdvice];
    } else if |history| < 5 {
      recs := recs + [EngageAdvice];
    } else {
      if AnyStress(Take(history, RecentWindow)) {
        recs := recs + [StressAdvice];
      }
      var days := DaysSince(now, history[0].timestamp);
      if days > 7 {
        recs := recs + [ReturnAdvice];
      } else if days == 0 {
        recs := recs + [TodayAdvice];
      }
    }
  }

  // -------------------------------------------------------------- history

  function TotalLength(history: seq<LogEntry>): nat {
    if history == [] then 0 else |history[0].message| + TotalLength(history[1..])
  }

  datatype Analytics = Analytics(totalConversations: nat, firstChat: Option<Timestamp>,
                                 lastChat: Option<Timestamp>, averageMessageLength: int,
                                 commonTopics: seq<Topic>, moodTrends: MoodTally)

  /** `GET /history`: the analytics of the newest-first log and the log
      shown oldest first. */
  method HistoryView(history: seq<LogEntry>) returns (analytics: Analytics, shown: seq<LogEntry>)
    ensures analytics.totalConversations == |history|
    ensures analytics.firstChat.Some? <==> history != []
    ensures analytics.lastChat.Some? <==> history != []
    ensures history != [] ==> analytics.firstChat.value == history[|history| - 1].timestamp
                              && analytics.lastChat.value == history[0].timestamp
    ensures history == [] ==> analytics.averageMessageLength == 0
    ensures history != [] ==>
              var mean := TotalLength(history) as real / |history| as real;
              analytics.averageMessageLength as real - 0.5 <= mean < analytics.averageMessageLength as real + 0.5
    ensures analytics.commonTopics == TopicsOf(history) && analytics.moodTrends == MoodTallyOf(history)
    ensures shown == Sorting.Reverse(history)
  {
    var n := |history|;
    var average := if n > 0 then Aggregation.MathRound(TotalLength(history) as real / n as real) else 0;
    var topics := ExtractCommonTopics(history);
    var moods := ExtractMoodKeywords(history);
    analytics := Analytics(n, if n > 0 then Some(history[n - 1].timestamp) else None,
                           if n > 0 then Some(history[0].timestamp) else None, average, topics, moods);
    shown := Sorting.Reverse(history);
  }

  // --------------------------------------------------------------- stream

  predicate Blank(line: string) {
    Trim(line) == ""
  }

  /** `chunk.toString().split('\n').filter(line => line.trim())`. */
  function Lines(chunk: string): (r: seq<string>)
    ensures forall l :: l in r ==> !Blank(l)
  {
    NonBlank(Split(chunk, '\n'))
  }

  function NonBlank(lines: seq<string>): (r: seq<string>)
    ensures forall l :: l in r <==> l in lines && !Blank(l)
  {
    if lines == [] then []
    else
      var rest := NonBlank(lines[1..]);
      assert forall l :: l in lines <==> l == lines[0] || l in lines[1..];
      if Blank(lines[0]) then rest else [lines[0]] + rest
  }

  /** What a line adds to the reply: the `response` field of a line that
      parses, when that is a non-empty string. */
  function Piece(line: string, parse: Parser): (r: Option<string>)
    ensures r.Some? ==> r.value != ""
    ensures parse(line).None? ==> r.None?
    ensures r.Some? <==> parse(line).Some? && var field := Get(parse(line).value, "response");
                                              field.Some? && field.value.JStr? && field.value.s != ""
    ensures r.Some? ==> Some(JStr(r.value)) == Get(parse(line).value, "response")
  {
    var v := parse(line);
    if v.None? then None
    else
      var field := Get(v.value, "response");
      if field.Some? && field.value.JStr? && field.value.s != "" then Some(field.value.s) else None
  }

  /** The pieces of the lines, in order. */
  function LinePieces(lines: seq<string>, parse: Parser): (r: seq<string>)
    ensures forall i :: 0 <= i < |r| ==> r[i] != ""
  {
    if lines == [] then []
    else LinePieces(lines[..|lines| - 1], parse) + Piece(lines[|lines| - 1], parse).ToSeq()
  }

  /** The pieces of every chunk, each chunk split into lines on its own. */
  function ChunkPieces(chunks: seq<string>, parse: Parser): (r: seq<string>)
    ensures forall i :: 0 <= i < |r| ==> r[i] != ""
  {
    if chunks == [] then []
    else ChunkPieces(chunks[..|chunks| - 1], parse) + LinePieces(Lines(chunks[|chunks| - 1]), parse)
  }

  function Concat(pieces: seq<string>): string {
    if pieces == [] then "" else Concat(pieces[..|pieces| - 1]) + pieces[|pieces| - 1]
  }

  /** The answer of `POST /stream-chat`. */
  datatype StreamOutcome =
    | StreamMessageRequired
    | StreamError
    | Streamed(written: seq<string>, fullResponse: string)

  /** `POST /stream-chat`: 400 without a message; a failing model request
      ends with "Stream error occurred"; otherwise every piece is written
      as it arrives and appended to the full reply. */
  method StreamChat(message: string, stream: Option<seq<string>>, parse: Parser) returns (out: StreamOutcome)
    ensures out == StreamMessageRequired <==> message == ""
    ensures out == StreamError <==> message != "" && stream.None?
    ensures out.Streamed? ==> out.written == ChunkPieces(stream.value, parse)
                              && out.fullResponse == Concat(out.written)
  {
    if message == "" {
      return StreamMessageRequired;
    }
    if stream.None? {
      return StreamError;
    }
    var chunks := stream.value;
    var fullResponse := "";
    var written: seq<string> := [];
    var i := 0;
    while i < |chunks|
      invariant 0 <= i <= |chunks|
      invariant written == ChunkPieces(chunks[..i], parse)
      invariant fullResponse == Concat(written)
    {
      ChunkPiecesSnoc(chunks, i, parse);
      written, fullResponse := WriteLines(Lines(chunks[i]), parse, written, fullResponse);
      i := i + 1;
    }
    assert chunks[..i] == chunks;
    out := Streamed(written, fullResponse);
  }

  /** The `for (const line of lines)` body over one chunk: each piece is
      appended to the reply and written out. */
  method WriteLines(lines: seq<string>, parse: Parser, written0: seq<string>, full0: string)
    returns (written: seq<string>, fullResponse: string)
    requires full0 == Concat(written0)
    ensures written == written0 + LinePieces(lines, parse)
    ensures fullResponse == Concat(written)
  {
    written, fullResponse := written0, full0;
    var j := 0;
    while j < |lines|
      invariant 0 <= j <= |lines|
      invariant written == written0 + LinePieces(lines[..j], parse)
      invariant fullResponse == Concat(written)
    {
      LinePiecesSnoc(lines, j, parse);
      var piece := Piece(lines[j], parse);
      if piece.Some? {
        ConcatSnoc(written, piece.value);
        fullResponse := fullResponse + piece.value;
        written := written + [piece.value];
      }
      j := j + 1;
    }
    assert lines[..j] == lines;
  }

  lemma ChunkPiecesSnoc(chunks: seq<string>, i: nat, parse: Parser)
    requires i < |chunks|
    ensures ChunkPieces(chunks[..i + 1], parse) == ChunkPieces(chunks[..i], parse) + LinePieces(Lines(chunks[i]), parse)
  {
    assert chunks[..i + 1][..i] == chunks[..i];
  }

  lemma LinePiecesSnoc(lines: seq<string>, j: nat, parse: Parser)
    requires j < |lines|
    ensures LinePieces(lines[..j + 1], parse) == LinePieces(lines[..j], parse) + Piece(lines[j], parse).ToSeq()
  {
    assert lines[..j + 1][..j] == lines[..j];
  }

  lemma ConcatSnoc(pieces: seq<string>, p: string)
    ensures Concat(pieces + [p]) == Concat(pieces) + p
  {
    assert (pieces + [p])[..|pieces|] == pieces;
  }

  /** A chunk without a newline and not blank is one line. */
  lemma OneLine(x: string, parse: Parser)
    requires '\n' !in x && !Blank(x)
    ensures Lines(x) == [x]
    ensures LinePieces(Lines(x), parse) == Piece(x, parse).ToSeq()
  {
    assert Split(x, '\n') == [x];
    assert NonBlank([x]) == [x];
  }

  /** One chunk without a newline yields the piece of its one line. */
  lemma OneChunk(x: string, parse: Parser)
    requires '\n' !in x && !Blank(x)
    ensures ChunkPieces([x], parse) == Piece(x, parse).ToSeq()
  {
    OneLine(x, parse);
    assert [x][..0] == [];
  }

  /** Two chunks without newlines yield the pieces of the two halves. */
  lemma TwoChunks(a: string, b: string, parse: Parser)
    requires '\n' !in a && '\n' !in b && !Blank(a) && !Blank(b)
    ensures ChunkPieces([a, b], parse) == Piece(a, parse).ToSeq() + Piece(b, parse).ToSeq()
  {
    OneChunk(a, parse);
    OneLine(b, parse);
    assert [a, b][..1] == [a];
  }

  /** A line the network splits across two chunks is lost: neither half
      parses, so nothing of it is written, though the whole line carries
      text. */
  lemma SplitLineIsLost(a: string, b: string, parse: Parser, text: string)
    requires '\n' !in a && '\n' !in b && !Blank(a) && !Blank(b) && !Blank(a + b)
    requires parse(a).None? && parse(b).None?
    requires Piece(a + b, parse) == Some(text)
    ensures ChunkPieces([a + b], parse) == [text]
    ensures ChunkPieces([a, b], parse) == []
  {
    assert '\n' !in a + b;
    OneChunk(a + b, parse);
    TwoChunks(a, b, parse);
  }

  /** The stream read as one text: lines are cut only at newlines, so the
      result does not depend on where chunk boundaries fall. */
  function BufferedPieces(chunks: seq<string>, parse: Parser): (r: seq<string>)
    ensures forall i :: 0 <= i < |r| ==> r[i] != ""
  {
    LinePieces(Lines(Concat(chunks)), parse)
  }

  /** Buffered reading keeps the line that chunking broke in two. */
  lemma BufferedKeepsSplitLine(a: string, b: string, parse: Parser, text: string)
    requires '\n' !in a && '\n' !in b && !Blank(a + b)
    requires Piece(a + b, parse) == Some(text)
    ensures BufferedPieces([a, b], parse) == [text]
    ensures BufferedPieces([a + b], parse) == [text]
  {
    assert [a, b][..1] == [a];
    assert Concat([a]) == a;
    assert Concat([a, b]) == a + b;
    assert Concat([a + b]) == a + b;
    assert '\n' !in a + b;
    OneLine(a + b, parse);
  }

  /** Two ways of cutting the same text into chunks give the same pieces. */
  lemma BufferedIgnoresChunking(c1: seq<string>, c2: seq<string>, parse: Parser)
    requires Concat(c1) == Concat(c2)
    ensures BufferedPieces(c1, parse) == BufferedPieces(c2, parse)
  {
  }
}
