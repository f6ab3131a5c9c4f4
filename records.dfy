/** The stored records: ChatMessage, Chat, MessageAnalysis,
    MentalHealthScore (here DailyScore) and DailyInsight, with the enums,
    defaults and value ranges their schemas declare. What `create` checks
    is modelled by the `New...` functions; the (userId, date) uniqueness of
    scores and insights is the key of the maps that hold them. */
module Records {
  import opened Wrappers
  import opened Text

  type UserId = string
  /** A calendar day written YYYY-MM-DD; the schemas do not enforce the shape. */
  type Date = string
  /** Milliseconds since the epoch. */
  type Timestamp = int
  /** Whether Mongoose casts a user id to an ObjectId, as the `userId`
      fields of ChatMessage and Chat require (current versions take a
      string of 24 hexadecimal digits). The cast rules belong to the
      library, so the model takes them as a parameter. */
  type IdCast = UserId -> bool
  /** Position of a message in the message collection. */
  type MessageId = nat

  const DayMillis: int := 24 * 60 * 60 * 1000

  // ---------------------------------------------------------------- moods

  /** The six mood labels shared by ChatMessage.meta.mood, Chat.mood and
      the mood classifier. */
  datatype Mood = Happy | Sad | Anxious | Stressed | Angry | Neutral

  function MoodLabel(m: Mood): string {
    match m
    case Happy => "happy"
    case Sad => "sad"
    case Anxious => "anxious"
    case Stressed => "stressed"
    case Angry => "angry"
    case Neutral => "neutral"
  }

  const MoodLabels: seq<string> := ["happy", "sad", "anxious", "stressed", "angry", "neutral"]

  /** Membership in the mood enum: the label's mood, if it is one. */
  function MoodOfLabel(s: string): (r: Option<Mood>)
    ensures r.Some? <==> s in MoodLabels
    ensures r.Some? ==> MoodLabel(r.value) == s
  {
    if s == "happy" then Some(Happy)
    else if s == "sad" then Some(Sad)
    else if s == "anxious" then Some(Anxious)
    else if s == "stressed" then Some(Stressed)
    else if s == "angry" then Some(Angry)
    else if s == "neutral" then Some(Mood.Neutral)
    else None
  }

  lemma MoodLabelRoundTrip(m: Mood)
    ensures MoodLabel(m) in MoodLabels
    ensures MoodOfLabel(MoodLabel(m)) == Some(m)
  {
  }

  // ------------------------------------------------------- chat messages

  datatype Sender = FromUser | FromBot

  function SenderOf(s: string): (r: Option<Sender>)
    ensures r.Some? <==> s == "user" || s == "bot"
  {
    if s == "user" then Some(FromUser) else if s == "bot" then Some(FromBot) else None
  }

  datatype MessageMeta = MessageMeta(mood: Mood, analyzed: bool)

  const DefaultMessageMeta: MessageMeta := MessageMeta(Mood.Neutral, false)

  datatype ChatMessage = ChatMessage(
    userId: UserId,
    message: string,
    sender: Sender,
    timestamp: Timestamp,
    meta: MessageMeta)

  datatype ValidationError =
    | Required(path: string)
    | NotInEnum(path: string, value: string)
    | OutOfRange(path: string)
    | CastFailed(path: string)

  /** A ChatMessage satisfies its schema: userId and a non-empty trimmed text. */
  predicate ValidChatMessage(m: ChatMessage) {
    m.userId != "" && m.message != "" && IsTrimmed(m.message)
  }

  /** `ChatMessage.create`: the user id must cast to an ObjectId, the text
      is trimmed before `required` is checked, the sender must be in the
      enum, meta takes its defaults and the timestamp is the creation time. */
  function NewChatMessage(userId: UserId, message: string, sender: string, now: Timestamp, isObjectId: IdCast)
    : (r: Result<ChatMessage, ValidationError>)
    ensures r.Ok? <==> userId != "" && isObjectId(userId) && Trim(message) != "" && SenderOf(sender).Some?
    ensures userId != "" && !isObjectId(userId) ==> r == Err(CastFailed("userId"))
    ensures r.Ok? ==> ValidChatMessage(r.value)
    ensures r.Ok? ==> r.value.message == Trim(message) && r.value.userId == userId
                      && Some(r.value.sender) == SenderOf(sender)
                      && r.value.timestamp == now && r.value.meta == DefaultMessageMeta
  {
    TrimIsTrimmed(message);
    var text := Trim(message);
    if userId == "" then Err(Required("userId"))
    else if !isObjectId(userId) then Err(CastFailed("userId"))
    else if text == "" then Err(Required("message"))
    else match SenderOf(sender)
      case None => Err(NotInEnum("sender", sender))
      case Some(s) => Ok(ChatMessage(userId, text, s, now, DefaultMessageMeta))
  }

  // ---------------------------------------------------------- chat turns

  /** One saved `/` chat turn (models/Chat.js); message and reply are free text. */
  datatype ChatTurn = ChatTurn(
    userId: UserId,
    message: string,
    reply: string,
    mood: Mood,
    createdAt: Timestamp)

  // ------------------------------------------------------------ analyses

  datatype Sentiment = Positive | Negative | Neutral

  function SentimentLabel(s: Sentiment): string {
    match s
    case Positive => "positive"
    case Negative => "negative"
    case Neutral => "neutral"
  }

  function SentimentOf(s: string): (r: Option<Sentiment>)
    ensures r.Some? <==> s == "positive" || s == "negative" || s == "neutral"
    ensures r.Some? ==> SentimentLabel(r.value) == s
  {
    if s == "positive" then Some(Positive)
    else if s == "negative" then Some(Negative)
    else if s == "neutral" then Some(Sentiment.Neutral)
    else None
  }

  /** An optional metric on the 0-10 scale. */
  predicate InScale(x: Option<real>) {
    x.None? || 0.0 <= x.value <= 10.0
  }

  predicate AllTrimmed(xs: seq<string>) {
    forall i :: 0 <= i < |xs| ==> IsTrimmed(xs[i])
  }

  datatype Analysis = Analysis(
    messageId: MessageId,
    sentiment: Sentiment,
    mood: Option<real>,
    anxiety: Option<real>,
    stress: Option<real>,
    energy: Option<real>,
    keywords: seq<string>,
    topics: seq<string>,
    createdAt: Timestamp)

  /** A MessageAnalysis satisfies its schema: every metric present lies in
      [0,10] and the list entries are trimmed. Nothing makes messageId unique. */
  predicate ValidAnalysis(a: Analysis) {
    InScale(a.mood) && InScale(a.anxiety) && InScale(a.stress) && InScale(a.energy)
    && AllTrimmed(a.keywords) && AllTrimmed(a.topics)
  }

  /** Mongoose's `trim` setter applied to each list entry. */
  function TrimAll(xs: seq<string>): (r: seq<string>)
    ensures |r| == |xs|
    ensures forall i :: 0 <= i < |xs| ==> r[i] == Trim(xs[i])
  {
    if xs == [] then [] else [Trim(xs[0])] + TrimAll(xs[1..])
  }

  lemma TrimAllTrimmed(xs: seq<string>)
    ensures AllTrimmed(TrimAll(xs))
  {
    forall i | 0 <= i < |xs| ensures IsTrimmed(TrimAll(xs)[i]) {
      TrimIsTrimmed(xs[i]);
    }
  }

  /** `MessageAnalysis.create`: list entries are trimmed and every metric
      must lie in [0,10], otherwise the create is rejected. */
  function NewAnalysis(a: Analysis): (r: Result<Analysis, ValidationError>)
    ensures r.Ok? <==> InScale(a.mood) && InScale(a.anxiety) && InScale(a.stress) && InScale(a.energy)
    ensures r.Ok? ==> ValidAnalysis(r.value)
    ensures r.Ok? ==> r.value == a.(keywords := TrimAll(a.keywords), topics := TrimAll(a.topics))
  {
    if !InScale(a.mood) then Err(OutOfRange("mood"))
    else if !InScale(a.anxiety) then Err(OutOfRange("anxiety"))
    else if !InScale(a.stress) then Err(OutOfRange("stress"))
    else if !InScale(a.energy) then Err(OutOfRange("energy"))
    else
      TrimAllTrimmed(a.keywords);
      TrimAllTrimmed(a.topics);
      Ok(a.(keywords := TrimAll(a.keywords), topics := TrimAll(a.topics)))
  }

  // ------------------------------------------------------- daily scores

  /** One MentalHealthScore row, unique per (userId, date). */
  datatype DailyScore = DailyScore(
    userId: UserId,
    date: Date,
    mood: Option<real>,
    anxiety: Option<real>,
    stress: Option<real>,
    energy: Option<real>,
    overall: Option<real>,
    messageCount: int)

  /** The row the schema's defaults give: no metrics and messageCount 0. */
  function EmptyScore(userId: UserId, date: Date): DailyScore {
    DailyScore(userId, date, None, None, None, None, None, 0)
  }

  /** Every metric present lies on the schema's 0-10 scale. */
  predicate ValidScore(s: DailyScore) {
    InScale(s.mood) && InScale(s.anxiety) && InScale(s.stress) && InScale(s.energy)
    && InScale(s.overall) && s.messageCount >= 0
  }

  // ----------------------------------------------------- daily insights

  datatype InsightMeta = InsightMeta(generated: bool, sourceMessages: int)

  const DefaultInsightMeta: InsightMeta := InsightMeta(false, 0)

  /** One DailyInsight row, unique per (userId, date); the three note
      lists keep their order. */
  datatype Insight = Insight(
    userId: UserId,
    date: Date,
    summary: string,
    positives: seq<string>,
    negatives: seq<string>,
    recommendations: seq<string>,
    meta: InsightMeta)
}
