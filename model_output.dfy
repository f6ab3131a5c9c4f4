/** utils/analyzeMessage.js: turning a language model's reply into a
    MessageAnalysis record. The reply is parsed strictly, then on the span
    from its first '{' to its last '}'; the parsed fields are sanitised
    (metrics outside 0-10 dropped, an unknown sentiment made neutral, lists
    cut to 25 entries) and one record is created. `JSON.parse` and
    Mongoose's string casting of list entries are parameters. */
module ModelOutput {
  import opened Wrappers
  import opened Text
  import opened Json
  import opened Records
  import opened Store

  /** Mongoose's cast of one list entry to String; `None` is a CastError. */
  type Caster = JsonValue -> Option<string>

  const MaxListLength: nat := 25

  // -------------------------------------------------------- brace slice

  /** The span of `raw` from its first '{' to its last '}', inclusive,
      when both exist and the '}' comes after the '{'. */
  function BraceSlice(raw: string): (r: Option<string>)
    ensures r.Some? <==> '{' in raw && '}' in raw[IndexOf(raw, '{') + 1..]
    ensures r.Some? ==> |r.value| >= 2 && r.value[0] == '{' && r.value[|r.value| - 1] == '}'
  {
    var start := IndexOf(raw, '{');
    var end := LastIndexOf(raw, '}');
    BraceOrder(raw);
    if start != -1 && end != -1 && end > start then
      var r := raw[start..end + 1];
      assert r[0] == raw[start] && r[|r| - 1] == raw[end];
      Some(r)
    else None
  }

  /** The slice is the outermost brace span: it sits at the first '{' of
      the reply, and no '{' comes before it and no '}' after it. */
  lemma BraceSliceOutermost(raw: string)
    ensures var r := BraceSlice(raw);
            r.Some? ==> var i := IndexOf(raw, '{');
                        i + |r.value| <= |raw| && raw[i..i + |r.value|] == r.value
                        && '{' !in raw[..i] && '}' !in raw[i + |r.value|..]
  {
    var start := IndexOf(raw, '{');
    var end := LastIndexOf(raw, '}');
    BraceOrder(raw);
    if start != -1 && end != -1 && end > start {
      var r := raw[start..end + 1];
      assert BraceSlice(raw) == Some(r);
      assert start + |r| == end + 1;
      assert '{' !in raw[..start];
      assert '}' !in raw[end + 1..];
    } else {
      assert BraceSlice(raw).None?;
    }
  }

  /** Some '}' follows the first '{' exactly when the last '}' does. */
  lemma BraceOrder(raw: string)
    ensures var i := IndexOf(raw, '{');
            ('{' in raw && '}' in raw[i + 1..]) <==> (i != -1 && LastIndexOf(raw, '}') > i)
  {
    var i := IndexOf(raw, '{');
    var j := LastIndexOf(raw, '}');
    if i != -1 && j > i {
      assert raw[i + 1..][j - i - 1] == '}';
    }
    if i != -1 && '}' in raw[i + 1..] {
      var m :| 0 <= m < |raw[i + 1..]| && raw[i + 1..][m] == '}';
      var k := i + 1 + m;
      assert raw[k] == '}';
    }
  }

  /** The JSON value the reply yields: the strict parse when it succeeds,
      otherwise the parse of the brace slice when there is one. */
  function Parsed(raw: string, parse: Parser): (r: Option<JsonValue>)
    ensures parse(raw).Some? ==> r == parse(raw)
    ensures parse(raw).None? && BraceSlice(raw).None? ==> r.None?
    ensures parse(raw).None? && BraceSlice(raw).Some? ==> r == parse(BraceSlice(raw).value)
  {
    match parse(raw)
    case Some(v) => Some(v)
    case None =>
      match BraceSlice(raw)
      case Some(slice) => parse(slice)
      case None => None
  }

  /** The try-then-fallback of `analyzeMessage`, assigning the parsed
      value step by step. */
  method ExtractJson(raw: string, parse: Parser) returns (data: Option<JsonValue>)
    ensures data == Parsed(raw, parse)
  {
    data := parse(raw);
    if data.None? {
      var start := IndexOf(raw, '{');
      var end := LastIndexOf(raw, '}');
      if start != -1 && end != -1 && end > start {
        var slice := raw[start..end + 1];
        data := parse(slice);
      }
    }
  }

  // -------------------------------------------------------- sanitising

  /** `safe(n)`: a number in [0,10] is kept, anything else is unset. */
  function Safe(v: Option<JsonValue>): (r: Option<real>)
    ensures r.Some? <==> v.Some? && v.value.JNum? && 0.0 <= v.value.n <= 10.0
    ensures r.Some? ==> v == Some(JNum(r.value))
    ensures InScale(r)
  {
    match v
    case Some(JNum(n)) => if 0.0 <= n <= 10.0 then Some(n) else None
    case _ => None
  }

  /** The sentiment field, replaced by neutral unless it is one of the
      three allowed strings. */
  function SentimentField(data: JsonValue): (r: Sentiment)
    ensures Get(data, "sentiment") == Some(JStr(SentimentLabel(r))) || r == Sentiment.Neutral
    ensures (exists s :: Get(data, "sentiment") == Some(JStr(s)) && SentimentOf(s).Some?)
            ==> Get(data, "sentiment") == Some(JStr(SentimentLabel(r)))
  {
    match Get(data, "sentiment")
    case Some(JStr(s)) => SentimentOf(s).GetOr(Sentiment.Neutral)
    case _ => Sentiment.Neutral
  }

  /** Casts every entry, failing if any entry fails. */
  function CastAll(items: seq<JsonValue>, cast: Caster): (r: Option<seq<string>>)
    ensures r.Some? <==> forall i :: 0 <= i < |items| ==> cast(items[i]).Some?
    ensures r.Some? ==> |r.value| == |items|
                        && forall i :: 0 <= i < |items| ==> Some(r.value[i]) == cast(items[i])
  {
    if items == [] then Some([])
    else
      match (cast(items[0]), CastAll(items[1..], cast))
      case (Some(x), Some(rest)) => Some([x] + rest)
      case (Some(_), None) =>
        assert forall i :: 1 <= i < |items| ==> items[1..][i - 1] == items[i];
        None
      case _ => None
  }

  /** A list field: the first 25 entries of an array, or `[]` for
      anything that is not an array; `None` when an entry cannot be cast
      to a string (the create then fails). */
  function ListField(v: Option<JsonValue>, cast: Caster): (r: Option<seq<string>>)
    ensures !(v.Some? && v.value.JArr?) ==> r == Some([])
    ensures r.Some? ==> |r.value| <= MaxListLength
    ensures v.Some? && v.value.JArr? ==>
              var n := if |v.value.items| < MaxListLength then |v.value.items| else MaxListLength;
              (r.Some? <==> forall i :: 0 <= i < n ==> cast(v.value.items[i]).Some?)
              && (r.Some? ==> |r.value| == n
                              && forall i :: 0 <= i < n ==> Some(r.value[i]) == cast(v.value.items[i]))
  {
    match v
    case Some(JArr(items)) =>
      var n := if |items| < MaxListLength then |items| else MaxListLength;
      CastAll(items[..n], cast)
    case _ => Some([])
  }

  /** The record `MessageAnalysis.create` is given, before its own
      casting and validation. */
  function Candidate(id: MessageId, data: JsonValue, keywords: seq<string>, topics: seq<string>,
                     now: Timestamp): (r: Analysis)
    ensures r.messageId == id && r.createdAt == now
    ensures InScale(r.mood) && InScale(r.anxiety) && InScale(r.stress) && InScale(r.energy)
    ensures r.sentiment == SentimentField(data)
    ensures r.mood == Safe(Get(data, "mood")) && r.anxiety == Safe(Get(data, "anxiety"))
    ensures r.stress == Safe(Get(data, "stress")) && r.energy == Safe(Get(data, "energy"))
    ensures r.keywords == keywords && r.topics == topics
  {
    Analysis(id, SentimentField(data),
             Safe(Get(data, "mood")), Safe(Get(data, "anxiety")),
             Safe(Get(data, "stress")), Safe(Get(data, "energy")),
             keywords, topics, now)
  }

  /** The record created from a parsed, truthy value, or `None` when a
      list entry cannot be cast; the metrics never make the create fail. */
  function FromData(id: MessageId, data: JsonValue, cast: Caster, now: Timestamp): (r: Option<Analysis>)
    ensures r.None? <==> ListField(Get(data, "keywords"), cast).None? || ListField(Get(data, "topics"), cast).None?
    ensures r.Some? ==> ValidAnalysis(r.value)
    ensures r.Some? ==> r.value == Candidate(id, data, ListField(Get(data, "keywords"), cast).value,
                                              ListField(Get(data, "topics"), cast).value, now)
                                     .(keywords := TrimAll(ListField(Get(data, "keywords"), cast).value),
                                       topics := TrimAll(ListField(Get(data, "topics"), cast).value))
  {
    var keywords := ListField(Get(data, "keywords"), cast);
    var topics := ListField(Get(data, "topics"), cast);
    if keywords.None? || topics.None? then None
    else
      var created := NewAnalysis(Candidate(id, data, keywords.value, topics.value, now));
      if created.Ok? then Some(created.value) else None
  }

  /** The record `analyzeMessage` stores for a reply, or `None` when it
      stores nothing: no document or an empty message, a failed model
      call, no parse that yields a truthy value, or a failed cast. */
  function ModelAnalysis(doc: Option<(MessageId, ChatMessage)>, reply: Option<string>,
                         parse: Parser, cast: Caster, now: Timestamp): (r: Option<Analysis>)
    ensures doc.None? || doc.value.1.message == "" || reply.None? ==> r.None?
    ensures r.Some? ==> ValidAnalysis(r.value) && r.value.messageId == doc.value.0
    ensures r.Some? ==> r.value.createdAt == now
    ensures r.Some? ==> var raw := Trim(reply.value);
                        parse(raw).Some? || (BraceSlice(raw).Some? && parse(BraceSlice(raw).value).Some?)
    ensures doc.Some? && doc.value.1.message != "" && reply.Some? ==>
              var data := Parsed(Trim(reply.value), parse);
              (data.None? || !Truthy(data.value) ==> r.None?)
              && (data.Some? && Truthy(data.value) ==> r == FromData(doc.value.0, data.value, cast, now))
  {
    if doc.None? || doc.value.1.message == "" || reply.None? then None
    else
      var data := Parsed(Trim(reply.value), parse);
      if data.None? || !Truthy(data.value) then None
      else FromData(doc.value.0, data.value, cast, now)
  }

  /** Sanitised metrics never make the create fail: every record built
      from a parsed value passes the schema's range checks. */
  lemma CandidateAccepted(id: MessageId, data: JsonValue, keywords: seq<string>, topics: seq<string>,
                          now: Timestamp)
    ensures NewAnalysis(Candidate(id, data, keywords, topics, now)).Ok?
  {
  }

  /** `analyzeMessage`: asks nothing of its caller and never throws; it
      appends the record `ModelAnalysis` describes, or nothing. */
  method AnalyzeMessage(db: Db, doc: Option<(MessageId, ChatMessage)>, reply: Option<string>,
                        parse: Parser, cast: Caster, now: Timestamp)
    requires db.Valid()
    modifies db
    ensures db.Valid()
    ensures db.analyses == old(db.analyses) + ModelAnalysis(doc, reply, parse, cast, now).ToSeq()
    ensures db.messages == old(db.messages) && db.chats == old(db.chats)
    ensures db.scores == old(db.scores) && db.insights == old(db.insights)
  {
    if doc.None? || doc.value.1.message == "" {
      return;
    }
    if reply.None? {
      return;
    }
    var raw := Trim(reply.value);
    var jsonData := ExtractJson(raw, parse);
    if jsonData.None? || !Truthy(jsonData.value) {
      return;
    }
    var data := jsonData.value;
    var keywords := ListField(Get(data, "keywords"), cast);
    var topics := ListField(Get(data, "topics"), cast);
    if keywords.None? || topics.None? {
      return;
    }
    var created := NewAnalysis(Candidate(doc.value.0, data, keywords.value, topics.value, now));
    if created.Ok? {
      db.InsertAnalysis(created.value);
    }
  }
}
