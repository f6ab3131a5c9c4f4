/** The mood classifier of utils/moodDetection.js: the language model's
    label when it is one of the six moods, and a keyword fallback when the
    model call fails. The model call is the parameter `reply`: `None` when
    the request fails or its answer is not text. */
module MoodDetection {
  import opened Wrappers
  import opened Text
  import opened Records

  const HappyWords: seq<string> := ["happy", "great", "good"]
  const SadWords: seq<string> := ["sad", "depressed", "unhappy"]
  const AnxiousWords: seq<string> := ["anxious", "worried", "nervous"]
  const StressedWords: seq<string> := ["stressed", "overwhelmed", "pressure"]
  const AngryWords: seq<string> := ["angry", "mad", "frustrated"]

  /** The keyword group that selects each mood in the fallback; none
      selects neutral, which is what is left. */
  function Group(m: Mood): seq<string> {
    match m
    case Happy => HappyWords
    case Sad => SadWords
    case Anxious => AnxiousWords
    case Stressed => StressedWords
    case Angry => AngryWords
    case Neutral => []
  }

  /** The position of each mood's test in the fallback's chain of `if`s. */
  function Rank(m: Mood): nat {
    match m
    case Happy => 0
    case Sad => 1
    case Anxious => 2
    case Stressed => 3
    case Angry => 4
    case Neutral => 5
  }

  /** The keyword fallback: the first group, in the order happy, sad,
      anxious, stressed, angry, with a word in the lower-cased message;
      neutral when none has. */
  function KeywordMood(message: string): (r: Mood)
    ensures r != Mood.Neutral ==> ContainsAny(Lower(message), Group(r))
    ensures forall m :: Rank(m) < Rank(r) ==> !ContainsAny(Lower(message), Group(m))
  {
    var text := Lower(message);
    if ContainsAny(text, HappyWords) then Happy
    else if ContainsAny(text, SadWords) then Sad
    else if ContainsAny(text, AnxiousWords) then Anxious
    else if ContainsAny(text, StressedWords) then Stressed
    else if ContainsAny(text, AngryWords) then Angry
    else Mood.Neutral
  }

  /** `detectMood(message)`: the model's answer, trimmed and lower-cased,
      if it is a mood label; otherwise neutral; the keyword fallback when
      the call fails. */
  function DetectMood(message: string, reply: Option<string>): (r: Mood)
    ensures reply.Some? && Lower(Trim(reply.value)) in MoodLabels ==> MoodLabel(r) == Lower(Trim(reply.value))
    ensures reply.Some? && Lower(Trim(reply.value)) !in MoodLabels ==> r == Mood.Neutral
    ensures reply.None? ==> r == KeywordMood(message)
  {
    match reply
    case None => KeywordMood(message)
    case Some(out) => MoodOfLabel(Lower(Trim(out))).GetOr(Mood.Neutral)
  }

  /** The fallback does not depend on case. */
  lemma KeywordMoodIgnoresCase(message: string)
    ensures KeywordMood(Lower(message)) == KeywordMood(message)
  {
    LowerIdempotent(message);
  }

  /** Whatever the model answers, the result is a mood label: unknown
      answers are never stored. */
  lemma DetectMoodIsLabel(message: string, reply: Option<string>)
    ensures MoodLabel(DetectMood(message, reply)) in MoodLabels
  {
    MoodLabelRoundTrip(DetectMood(message, reply));
  }

  /** The fallback matches substrings, so "unhappy" is read as happy: the
      happy group is tried first and "happy" occurs inside "unhappy". */
  lemma UnhappyIsHappy()
    ensures KeywordMood("unhappy") == Happy
  {
    var t := Lower("unhappy");
    assert t[2..7] == "happy";
    ContainsAt(t, "happy", 2);
    assert HappyWords[0] == "happy";
  }

  lemma TrimPadded()
    ensures Trim(" Sad\n") == "Sad"
  {
    var s: string := [' ', 'S', 'a', 'd', '\n'];
    var u: string := ['S', 'a', 'd', '\n'];
    var v: string := ['S', 'a', 'd'];
    assert s == " Sad\n" && v == "Sad";
    assert IsSpace(s[0]) && s[1..] == u;
    assert !IsSpace(u[0]);
    assert TrimStart(s) == u;
    assert IsSpace(u[3]) && u[..3] == v;
    assert !IsSpace(v[2]);
    assert TrimEnd(u) == v;
  }

  /** A model answer with surrounding white space and capitals is accepted. */
  lemma PaddedReplyAccepted(message: string)
    ensures DetectMood(message, Some(" Sad\n")) == Sad
  {
    TrimPadded();
    assert Lower("Sad") == "sad";
  }
}
