/** The placeholder message analyser of routes/chat.js (`analyzeMessage`,
    lines 81-107): lexicon hits by substring, a sentiment from the hit
    counts, and four 0-10 scores. `AnalyzeAsWritten` is the code as it
    stands, and the routes follow it; `Analyze` caps mood at 10, as the
    MessageAnalysis schema demands, and backs the corrected pipeline. */
module Heuristic {
  import opened Wrappers
  import opened Text
  import opened Records

  const NegativeWords: seq<string> :=
    ["sad", "anxious", "stress", "stressed", "angry", "tired", "panic", "worried", "depressed"]
  const PositiveWords: seq<string> :=
    ["grateful", "happy", "calm", "relaxed", "good", "better", "progress", "proud"]
  const TopicWords: seq<string> := ["work", "sleep", "family", "study", "exam"]

  predicate Distinct<T(==)>(s: seq<T>) {
    forall i, j :: 0 <= i < j < |s| ==> s[i] != s[j]
  }

  /** `words.filter(w => text.includes(w))`: the listed words found in
      `text`, in list order. */
  function Matching(text: string, words: seq<string>): (r: seq<string>)
    ensures |r| <= |words|
    ensures forall w :: w in r <==> w in words && Contains(text, w)
    ensures Distinct(words) ==> Distinct(r)
  {
    if words == [] then []
    else
      var rest := Matching(text, words[1..]);
      assert Distinct(words) ==> words[0] !in words[1..];
      if Contains(text, words[0]) then [words[0]] + rest else rest
  }

  /** Filtering a concatenated list filters each part in turn. */
  lemma {:induction false} MatchingAppend(text: string, a: seq<string>, b: seq<string>)
    ensures Matching(text, a + b) == Matching(text, a) + Matching(text, b)
  {
    if a != [] {
      assert (a + b)[1..] == a[1..] + b;
      MatchingAppend(text, a[1..], b);
    } else {
      assert a + b == b;
    }
  }

  /** `[...new Set(s)]`: each element once, at its first position. */
  function Dedup<T(==,!new)>(s: seq<T>): (r: seq<T>)
    ensures forall x :: x in r <==> x in s
    ensures Distinct(r)
    ensures Distinct(s) ==> r == s
  {
    if s == [] then []
    else
      var init := Dedup(s[..|s| - 1]);
      var x := s[|s| - 1];
      assert s == s[..|s| - 1] + [x];
      if x in init then init else init + [x]
  }

  function Min(a: int, b: int): int { if a <= b then a else b }
  function Max(a: int, b: int): int { if a >= b then a else b }

  function NegHits(text: string): nat { |Matching(text, NegativeWords)| }
  function PosHits(text: string): nat { |Matching(text, PositiveWords)| }

  /** Sentiment from the hit counts. The `> 0` guards of the source are
      implied by the comparisons: negative iff more negative hits,
      positive iff more positive hits, neutral on a tie. */
  function SentimentOfHits(neg: nat, pos: nat): (r: Sentiment)
    ensures r == Negative <==> neg > pos
    ensures r == Positive <==> pos > neg
    ensures r == Sentiment.Neutral <==> neg == pos
  {
    if neg > pos && neg > 0 then Negative
    else if pos > neg && pos > 0 then Positive
    else Sentiment.Neutral
  }

  /** The analyser's result before it is stored. */
  datatype Scores = Scores(
    sentiment: Sentiment,
    mood: int,
    anxiety: int,
    stress: int,
    energy: int,
    keywords: seq<string>,
    topics: seq<string>)

  /** All four scores lie on the 0-10 scale of the MessageAnalysis schema. */
  predicate InRange(s: Scores) {
    0 <= s.mood <= 10 && 0 <= s.anxiety <= 10 && 0 <= s.stress <= 10 && 0 <= s.energy <= 10
  }

  /** Mood as the source computes it: 7 + positive hits when positive,
      5 - negative hits (not below 0) when negative, 5 otherwise. */
  function MoodAsWritten(s: Sentiment, neg: nat, pos: nat): int {
    match s
    case Positive => 7 + pos
    case Negative => Max(0, 5 - neg)
    case Neutral => 5
  }

  /** `analyzeMessage`'s scoring as written. */
  function AnalyzeAsWritten(message: string): (r: Scores)
    ensures r.sentiment == SentimentOfHits(NegHits(Lower(message)), PosHits(Lower(message)))
    ensures 0 <= r.stress <= 10 && 0 <= r.anxiety <= 10 && (r.energy == 3 || r.energy == 6)
    ensures r.mood >= 0
    ensures r.sentiment == Negative ==> r.mood <= 4
    ensures r.sentiment == Positive ==> r.mood >= 8
    ensures r.energy == 3 <==> Contains(Lower(message), "tired")
    ensures forall w :: w in r.keywords
                        <==> (w in NegativeWords || w in PositiveWords) && Contains(Lower(message), w)
    ensures forall w :: w in r.topics <==> w in TopicWords && Contains(Lower(message), w)
  {
    var txt := Lower(message);
    var neg := NegHits(txt);
    var pos := PosHits(txt);
    var sentiment := SentimentOfHits(neg, pos);
    var stress := Min(10, neg * 2);
    var anxiety := if Contains(txt, "anxious") || Contains(txt, "panic") then Min(10, 4 + neg) else Min(10, neg);
    var mood := MoodAsWritten(sentiment, neg, pos);
    var energy := if Contains(txt, "tired") then 3 else 6;
    var keywords := Dedup(Matching(txt, NegativeWords + PositiveWords));
    Scores(sentiment, mood, anxiety, stress, energy, keywords, Matching(txt, TopicWords))
  }

  /** Mood leaves the 0-10 scale exactly when the text is positive with
      at least four positive hits. */
  lemma MoodOverflowIff(message: string)
    ensures var txt := Lower(message);
            !InRange(AnalyzeAsWritten(message))
            <==> SentimentOfHits(NegHits(txt), PosHits(txt)) == Positive && PosHits(txt) >= 4
  {
  }

  /** The scoring with mood capped at 10: always in range, and equal to the
      code as written whenever that is in range. */
  function Analyze(message: string): (r: Scores)
    ensures InRange(r)
    ensures InRange(AnalyzeAsWritten(message)) ==> r == AnalyzeAsWritten(message)
    ensures r.(mood := 0) == AnalyzeAsWritten(message).(mood := 0)
    ensures AnalyzeAsWritten(message).mood > 10 ==> r.mood == 10
  {
    var a := AnalyzeAsWritten(message);
    a.(mood := Min(10, a.mood))
  }

  /** The MessageAnalysis record `analyzeMessage` hands to `create`. */
  function AnalysisRecord(id: MessageId, s: Scores, now: Timestamp): (r: Analysis)
    ensures r.messageId == id && r.sentiment == s.sentiment && r.createdAt == now
    ensures r.mood == Some(s.mood as real) && r.anxiety == Some(s.anxiety as real)
    ensures r.stress == Some(s.stress as real) && r.energy == Some(s.energy as real)
    ensures r.keywords == s.keywords && r.topics == s.topics
  {
    Analysis(id, s.sentiment, Some(s.mood as real), Some(s.anxiety as real), Some(s.stress as real),
             Some(s.energy as real), s.keywords, s.topics, now)
  }

  /** The create accepts the record exactly when the scores are in range:
      as written, a message with four positive hits loses its analysis. */
  lemma AnalysisRecordAccepted(id: MessageId, s: Scores, now: Timestamp)
    ensures NewAnalysis(AnalysisRecord(id, s, now)).Ok? <==> InRange(s)
  {
  }

  /** The lexicons have no repeated word, so the `Set` in the keyword
      computation removes nothing. */
  lemma KeywordsNeedNoDedup(message: string)
    ensures AnalyzeAsWritten(message).keywords == Matching(Lower(message), NegativeWords + PositiveWords)
  {
    var all := NegativeWords + PositiveWords;
    assert Distinct(all);
  }

  lemma TwoMembers<T>(s: seq<T>, a: T, b: T)
    requires a in s && b in s && a != b
    ensures |s| >= 2
  {
  }

  lemma StressInStressed(txt: string)
    requires Contains(txt, "stressed")
    ensures Contains(txt, "stress")
  {
    ContainsInfix("", "stress", "ed");
    assert "" + "stress" + "ed" == "stressed";
    ContainsTransitive(txt, "stressed", "stress");
  }

  /** Substring hits: a text with "stressed" also hits "stress", so one
      word counts twice. */
  lemma StressedCountsTwice(message: string)
    requires Contains(Lower(message), "stressed")
    ensures "stress" in AnalyzeAsWritten(message).keywords
    ensures "stressed" in AnalyzeAsWritten(message).keywords
    ensures NegHits(Lower(message)) >= 2
  {
    var txt := Lower(message);
    StressInStressed(txt);
    assert NegativeWords[2] == "stress" && NegativeWords[3] == "stressed";
    TwoMembers(Matching(txt, NegativeWords), "stress", "stressed");
  }
}
