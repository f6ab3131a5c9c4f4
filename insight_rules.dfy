/** The daily insight of routes/chat.js (`maybeGenerateDailyInsight`,
    lines 153-190): averages over the newest score rows, the threshold
    rules that turn them into positive and negative notes with matching
    recommendations, and the summary line. */
module InsightRules {
  import opened Wrappers
  import opened Text
  import opened Records
  import opened Store
  import opened Aggregation

  /** At most this many of the newest rows feed an insight. */
  const WindowSize: nat := 5

  // ------------------------------------------------------------ window

  /** Rows strictly newest first: dates in descending string order. */
  predicate NewestFirst(rows: seq<DailyScore>) {
    forall i, j :: 0 <= i < j < |rows| ==> LexLess(rows[j].date, rows[i].date)
  }

  /** The keys of one user's rows. */
  function UserKeys(scores: map<Key, DailyScore>, userId: UserId): set<Key> {
    set k | k in scores && k.0 == userId
  }

  /** `find({ userId }).sort({ date: -1 }).limit(n)`: the user's rows,
      newest first, cut to `n`; every row left out is older than every
      row kept. */
  predicate IsRecentWindow(scores: map<Key, DailyScore>, userId: UserId, n: nat, w: seq<DailyScore>) {
    |w| == (if |UserKeys(scores, userId)| < n then |UserKeys(scores, userId)| else n)
    && NewestFirst(w)
    && (forall i :: 0 <= i < |w| ==> (userId, w[i].date) in scores && scores[(userId, w[i].date)] == w[i])
    && (forall k :: k in UserKeys(scores, userId) && scores[k] !in w ==>
          forall i :: 0 <= i < |w| ==> LexLess(k.1, w[i].date))
  }

  /** Inserts a row into a newest-first list whose dates differ from its
      own. */
  function InsertByDate(x: DailyScore, rows: seq<DailyScore>): (r: seq<DailyScore>)
    requires NewestFirst(rows)
    requires forall i :: 0 <= i < |rows| ==> rows[i].date != x.date
    ensures |r| == |rows| + 1
    ensures forall y :: y in r <==> y in rows || y == x
    ensures NewestFirst(r)
    ensures r[0] == x || (rows != [] && r[0] == rows[0])
  {
    if rows == [] || LexLess(rows[0].date, x.date) then
      var r := [x] + rows;
      assert forall j :: 1 <= j < |r| ==> LexLess(r[j].date, x.date) by {
        forall j | 1 <= j < |r| ensures LexLess(r[j].date, x.date) {
          if j > 1 { LexLessTransitive(r[j].date, rows[0].date, x.date); }
        }
      }
      r
    else
      var rest := InsertByDate(x, rows[1..]);
      LexLessTotal(rows[0].date, x.date);
      var r := [rows[0]] + rest;
      assert forall j :: 1 <= j < |r| ==> LexLess(r[j].date, rows[0].date) by {
        forall j | 1 <= j < |r| ensures LexLess(r[j].date, rows[0].date) {
          assert r[j] == rest[j - 1];
          if r[j] != x {
            assert r[j] in rows[1..];
            var m :| 0 <= m < |rows[1..]| && rows[1..][m] == r[j];
            assert rows[m + 1] == r[j];
          }
        }
      }
      r
  }

  // ---------------------------------------------------------- averages

  function MetricSum(rows: seq<DailyScore>, metric: DailyScore -> Option<real>): real {
    if rows == [] then 0.0 else metric(rows[0]).GetOr(0.0) + MetricSum(rows[1..], metric)
  }

  lemma {:induction false} MetricSumBounds(rows: seq<DailyScore>, metric: DailyScore -> Option<real>)
    requires forall i :: 0 <= i < |rows| ==> InScale(metric(rows[i]))
    ensures 0.0 <= MetricSum(rows, metric) <= |rows| as real * 10.0
  {
    if rows != [] {
      assert InScale(metric(rows[0]));
      MetricSumBounds(rows[1..], metric);
      assert |rows| as real * 10.0 == |rows[1..]| as real * 10.0 + 10.0;
    }
  }

  /** `Math.round(rows.reduce((a, c) => a + (c.metric || 0), 0) / rows.length)`:
      a missing metric counts as 0. */
  function RoundedAvg(rows: seq<DailyScore>, metric: DailyScore -> Option<real>): (r: int)
    requires rows != []
    ensures (forall i :: 0 <= i < |rows| ==> InScale(metric(rows[i]))) ==> 0 <= r <= 10
  {
    MeanOfScaleInScale(rows, metric);
    MathRound(MetricSum(rows, metric) / |rows| as real)
  }

  lemma MeanOfScaleInScale(rows: seq<DailyScore>, metric: DailyScore -> Option<real>)
    requires rows != []
    ensures (forall i :: 0 <= i < |rows| ==> InScale(metric(rows[i])))
            ==> 0.0 <= MetricSum(rows, metric) / |rows| as real <= 10.0
  {
    if forall i :: 0 <= i < |rows| ==> InScale(metric(rows[i])) {
      MetricSumBounds(rows, metric);
      MeanBounds(MetricSum(rows, metric), |rows|);
    }
  }

  function ScoreMood(s: DailyScore): Option<real> { s.mood }
  function ScoreStress(s: DailyScore): Option<real> { s.stress }
  function ScoreAnxiety(s: DailyScore): Option<real> { s.anxiety }

  /** The three rounded averages the rules read. */
  datatype Averages = Averages(mood: int, stress: int, anxiety: int)

  function AveragesOf(rows: seq<DailyScore>): Averages
    requires rows != []
  {
    Averages(RoundedAvg(rows, ScoreMood), RoundedAvg(rows, ScoreStress), RoundedAvg(rows, ScoreAnxiety))
  }

  /** `sourceMessages`: the message counts of the window added up. */
  function SourceMessages(rows: seq<DailyScore>): int {
    if rows == [] then 0 else rows[0].messageCount + SourceMessages(rows[1..])
  }

  // ------------------------------------------------------------- rules

  const MoodHealthy := "Mood holding in healthy range"
  const StressManaged := "Stress relatively managed"
  const AnxietyControlled := "Anxiety under control"

  const StressElevated := "Elevated stress signals"
  const AnxietyPersistent := "Persistent anxiety indicators"
  const MoodLow := "Low mood trend detected"

  const BreaksAdvice := "Schedule short decompression breaks every 2 hours"
  const BreathingAdvice := "Practice a 5-minute breathing exercise (4-7-8)"
  const WinsAdvice := "List 3 small wins from today before bedtime"
  const DefaultAdvice := "Maintain current routines and track consistency"

  function Note(cond: bool, note: string): seq<string> {
    if cond then [note] else []
  }

  /** Positive notes, in the order mood, stress, anxiety. */
  function Positives(a: Averages): seq<string> {
    Note(a.mood >= 6, MoodHealthy) + Note(a.stress <= 4, StressManaged)
    + Note(a.anxiety <= 4, AnxietyControlled)
  }

  /** Negative notes, in the order stress, anxiety, mood. */
  function Negatives(a: Averages): seq<string> {
    Note(a.stress >= 6, StressElevated) + Note(a.anxiety >= 6, AnxietyPersistent)
    + Note(a.mood <= 4, MoodLow)
  }

  /** The recommendation paired with each negative note. */
  function Advice(note: string): string {
    if note == StressElevated then BreaksAdvice
    else if note == AnxietyPersistent then BreathingAdvice
    else WinsAdvice
  }

  function MapAdvice(notes: seq<string>): (r: seq<string>)
    ensures |r| == |notes| && forall i :: 0 <= i < |notes| ==> r[i] == Advice(notes[i])
  {
    if notes == [] then [] else [Advice(notes[0])] + MapAdvice(notes[1..])
  }

  /** Recommendations, by the thresholds themselves, with the default
      when no negative threshold is crossed. */
  function Recommendations(a: Averages): seq<string> {
    var r := Note(a.stress >= 6, BreaksAdvice) + Note(a.anxiety >= 6, BreathingAdvice)
             + Note(a.mood <= 4, WinsAdvice);
    if r == [] then [DefaultAdvice] else r
  }

  /** Builds the three lists by pushing, as the source does. */
  method BuildNotes(a: Averages) returns (positives: seq<string>, negatives: seq<string>,
                                          recommendations: seq<string>)
    ensures positives == Positives(a)
    ensures negatives == Negatives(a)
    ensures recommendations == Recommendations(a)
  {
    positives := [];
    if a.mood >= 6 { positives := positives + [MoodHealthy]; }
    if a.stress <= 4 { positives := positives + [StressManaged]; }
    if a.anxiety <= 4 { positives := positives + [AnxietyControlled]; }

    negatives := [];
    if a.stress >= 6 { negatives := negatives + [StressElevated]; }
    if a.anxiety >= 6 { negatives := negatives + [AnxietyPersistent]; }
    if a.mood <= 4 { negatives := negatives + [MoodLow]; }

    recommendations := [];
    if a.stress >= 6 { recommendations := recommendations + [BreaksAdvice]; }
    if a.anxiety >= 6 { recommendations := recommendations + [BreathingAdvice]; }
    if a.mood <= 4 { recommendations := recommendations + [WinsAdvice]; }
    if |recommendations| == 0 { recommendations := recommendations + [DefaultAdvice]; }
  }

  /** One recommendation per negative note, in the same order, or the
      single default when there is no negative note. */
  lemma RecommendationsFollowNegatives(a: Averages)
    ensures Negatives(a) == [] ==> Recommendations(a) == [DefaultAdvice]
    ensures Negatives(a) != [] ==> Recommendations(a) == MapAdvice(Negatives(a))
  {
    assert StressElevated != AnxietyPersistent;
  }

  /** An average of exactly 5 yields no note about that metric. */
  lemma FiveIsSilent(a: Averages)
    ensures a.mood == 5 ==> MoodHealthy !in Positives(a) && MoodLow !in Negatives(a)
    ensures a.stress == 5 ==> StressManaged !in Positives(a) && StressElevated !in Negatives(a)
    ensures a.anxiety == 5 ==> AnxietyControlled !in Positives(a) && AnxietyPersistent !in Negatives(a)
  {
  }

  /** No metric is both praised and flagged. */
  lemma NeverBoth(a: Averages)
    ensures !(MoodHealthy in Positives(a) && MoodLow in Negatives(a))
    ensures !(StressManaged in Positives(a) && StressElevated in Negatives(a))
    ensures !(AnxietyControlled in Positives(a) && AnxietyPersistent in Negatives(a))
  {
  }

  /** `Mood avg X, Stress avg Y, Anxiety avg Z`. */
  function Summary(a: Averages): string {
    "Mood avg " + IntToString(a.mood) + ", Stress avg " + IntToString(a.stress)
    + ", Anxiety avg " + IntToString(a.anxiety)
  }

  /** The insight created for a non-empty window. */
  function InsightOf(userId: UserId, date: Date, rows: seq<DailyScore>): (r: Insight)
    requires rows != []
    ensures r.userId == userId && r.date == date
    ensures r.summary == Summary(AveragesOf(rows))
    ensures r.positives == Positives(AveragesOf(rows)) && r.negatives == Negatives(AveragesOf(rows))
    ensures r.recommendations == Recommendations(AveragesOf(rows))
    ensures r.meta == InsightMeta(true, SourceMessages(rows))
  {
    var a := AveragesOf(rows);
    Insight(userId, date, Summary(a), Positives(a), Negatives(a), Recommendations(a),
            InsightMeta(true, SourceMessages(rows)))
  }
}
