/** The two ways a MentalHealthScore row is computed, kept apart as the
    source keeps them: the real-time upsert of routes/chat.js, which counts
    one more message and overwrites the metrics with the latest message's
    values, and the batch recomputation of utils/dailyScores.js, which
    averages every analysis of the day and rounds to two decimals.
    Numbers are exact reals; `Math.round` is written out. */
module Aggregation {
  import opened Wrappers
  import opened Records
  import opened Store

  /** `Math.round`: the nearest integer, halves rounded up. */
  function MathRound(x: real): (r: int)
    ensures r as real - 0.5 <= x < r as real + 0.5
  {
    (x + 0.5).Floor
  }

  /** On a quarter of an integer, `Math.round` is `(sum + 2) div 4`. */
  lemma RoundQuarter(sum: int)
    ensures MathRound(sum as real / 4.0) == (sum + 2) / 4
  {
    var q := (sum + 2) / 4;
    assert 4 * q <= sum + 2 < 4 * q + 4;
    assert q as real - 0.5 <= sum as real / 4.0 < q as real + 0.5;
  }

  // ---------------------------------------------------------- real time

  /** The four integer scores of one heuristic analysis. */
  datatype Metrics = Metrics(mood: int, anxiety: int, stress: int, energy: int)

  predicate MetricsInRange(m: Metrics) {
    0 <= m.mood <= 10 && 0 <= m.anxiety <= 10 && 0 <= m.stress <= 10 && 0 <= m.energy <= 10
  }

  /** overall = round((mood + (10 - anxiety) + (10 - stress) + energy) / 4). */
  function IntOverall(m: Metrics): (r: int)
    ensures r == (m.mood + (10 - m.anxiety) + (10 - m.stress) + m.energy + 2) / 4
    ensures MetricsInRange(m) ==> 0 <= r <= 10
  {
    RoundQuarter(m.mood + (10 - m.anxiety) + (10 - m.stress) + m.energy);
    MathRound((m.mood + (10 - m.anxiety) + (10 - m.stress) + m.energy) as real / 4.0)
  }

  /** The row `upsertDailyScore` leaves: `$inc` the count (from the
      default 0 on insert), `$set` the four metrics and overall. */
  function RealtimeUpsert(prior: Option<DailyScore>, userId: UserId, date: Date, m: Metrics)
    : (r: DailyScore)
    ensures r.messageCount == (if prior.Some? then prior.value.messageCount else 0) + 1
    ensures r.mood == Some(m.mood as real) && r.anxiety == Some(m.anxiety as real)
    ensures r.stress == Some(m.stress as real) && r.energy == Some(m.energy as real)
    ensures r.overall == Some(IntOverall(m) as real)
    ensures r.userId == userId && r.date == date
  {
    var base := if prior.Some? then prior.value else EmptyScore(userId, date);
    DailyScore(userId, date, Some(m.mood as real), Some(m.anxiety as real), Some(m.stress as real),
               Some(m.energy as real), Some(IntOverall(m) as real), base.messageCount + 1)
  }

  /** The upsert keeps a stored row valid when the metrics are in range. */
  lemma RealtimeUpsertStored(prior: Option<DailyScore>, k: Key, m: Metrics)
    requires prior.Some? ==> StoredScore(k, prior.value)
    requires MetricsInRange(m)
    ensures StoredScore(k, RealtimeUpsert(prior, k.0, k.1, m))
  {
  }

  // -------------------------------------------------------------- batch

  /** `round2`: `Math.round(n * 100) / 100`. */
  function Round2(x: real): (r: real)
    ensures -0.005 < r - x <= 0.005
    ensures (r * 100.0).Floor as real == r * 100.0
    ensures 0.0 <= x <= 10.0 ==> 0.0 <= r <= 10.0
  {
    var k := MathRound(x * 100.0);
    assert 0.0 <= x <= 10.0 ==> 0 <= k <= 1000;
    assert k as real / 100.0 - x == (k as real - x * 100.0) / 100.0;
    k as real / 100.0
  }

  /** The numbers among the values, in order (`filter` on `typeof ===
      'number'`). */
  function Numbers(xs: seq<Option<real>>): (r: seq<real>)
    ensures |r| <= |xs|
    ensures forall x :: x in r <==> Some(x) in xs
  {
    if xs == [] then []
    else
      assert forall i :: 1 <= i < |xs| ==> xs[i] == xs[1..][i - 1];
      (if xs[0].Some? then [xs[0].value] else []) + Numbers(xs[1..])
  }

  function Sum(xs: seq<real>): real {
    if xs == [] then 0.0 else xs[0] + Sum(xs[1..])
  }

  lemma {:induction false} SumBounds(xs: seq<real>, lo: real, hi: real)
    requires forall x :: x in xs ==> lo <= x <= hi
    ensures |xs| as real * lo <= Sum(xs) <= |xs| as real * hi
  {
    if xs != [] {
      assert xs[0] in xs;
      assert forall x :: x in xs[1..] ==> x in xs;
      SumBounds(xs[1..], lo, hi);
      assert |xs| as real * lo == |xs[1..]| as real * lo + lo;
      assert |xs| as real * hi == |xs[1..]| as real * hi + hi;
    }
  }

  /** `avg`: the mean of the numbers, rounded to two decimals; 0 when
      there are none. */
  function Avg(xs: seq<Option<real>>): (r: real)
    ensures Numbers(xs) == [] ==> r == 0.0
    ensures Numbers(xs) != [] ==> -0.005 < r - Sum(Numbers(xs)) / |Numbers(xs)| as real <= 0.005
    ensures (forall i :: 0 <= i < |xs| ==> InScale(xs[i])) ==> 0.0 <= r <= 10.0
  {
    var clean := Numbers(xs);
    if clean == [] then 0.0
    else
      MeanInScale(xs);
      Round2(Sum(clean) / |clean| as real)
  }

  /** The mean of values on the 0-10 scale stays on it. */
  lemma MeanInScale(xs: seq<Option<real>>)
    requires Numbers(xs) != []
    ensures (forall i :: 0 <= i < |xs| ==> InScale(xs[i]))
            ==> 0.0 <= Sum(Numbers(xs)) / |Numbers(xs)| as real <= 10.0
  {
    var clean := Numbers(xs);
    if forall i :: 0 <= i < |xs| ==> InScale(xs[i]) {
      forall x | x in clean ensures 0.0 <= x <= 10.0 {
        var i :| 0 <= i < |xs| && xs[i] == Some(x);
      }
      SumBounds(clean, 0.0, 10.0);
      MeanBounds(Sum(clean), |clean|);
    }
  }

  lemma MeanBounds(sum: real, n: nat)
    requires n > 0 && 0.0 <= sum <= n as real * 10.0
    ensures 0.0 <= sum / n as real <= 10.0
  {
  }

  /** One metric of every analysis, in order (`filtered.map(a => ...)`). */
  function Column(xs: seq<Analysis>, metric: Analysis -> Option<real>): (r: seq<Option<real>>)
    ensures |r| == |xs| && forall i :: 0 <= i < |xs| ==> r[i] == metric(xs[i])
  {
    if xs == [] then [] else [metric(xs[0])] + Column(xs[1..], metric)
  }

  function Mood(a: Analysis): Option<real> { a.mood }
  function Anxiety(a: Analysis): Option<real> { a.anxiety }
  function Stress(a: Analysis): Option<real> { a.stress }
  function Energy(a: Analysis): Option<real> { a.energy }

  /** The two-decimal mean of one metric over valid analyses is on the
      0-10 scale. */
  lemma ColumnAvgInScale(xs: seq<Analysis>, metric: Analysis -> Option<real>)
    requires forall i :: 0 <= i < |xs| ==> InScale(metric(xs[i]))
    ensures 0.0 <= Avg(Column(xs, metric)) <= 10.0
  {
  }

  /** overall from four means on the 0-10 scale is on it too. */
  function RealOverall(mood: real, anxiety: real, stress: real, energy: real): (r: real)
    requires 0.0 <= mood <= 10.0 && 0.0 <= anxiety <= 10.0 && 0.0 <= stress <= 10.0 && 0.0 <= energy <= 10.0
    ensures 0.0 <= r <= 10.0
    ensures -0.005 < r - (mood + energy + (10.0 - anxiety) + (10.0 - stress)) / 4.0 <= 0.005
  {
    Round2((mood + energy + (10.0 - anxiety) + (10.0 - stress)) / 4.0)
  }

  /** The row `calculateDailyScore` computes from the day's analyses of
      one user: `None` when there are none, otherwise every metric the
      two-decimal mean over the analyses that have it, overall from those
      means, and one count per analysis, with or without metrics. */
  function BatchScore(userId: UserId, date: Date, xs: seq<Analysis>): (r: Option<DailyScore>)
    requires forall i :: 0 <= i < |xs| ==> ValidAnalysis(xs[i])
    ensures r.None? <==> xs == []
    ensures r.Some? ==> StoredScore((userId, date), r.value)
    ensures r.Some? ==> r.value.messageCount == |xs|
    ensures r.Some? ==> r.value.mood == Some(Avg(Column(xs, Mood)))
                        && r.value.anxiety == Some(Avg(Column(xs, Anxiety)))
                        && r.value.stress == Some(Avg(Column(xs, Stress)))
                        && r.value.energy == Some(Avg(Column(xs, Energy)))
  {
    if xs == [] then None
    else
      assert forall i :: 0 <= i < |xs| ==>
                InScale(Mood(xs[i])) && InScale(Anxiety(xs[i])) && InScale(Stress(xs[i])) && InScale(Energy(xs[i])) by {
        forall i | 0 <= i < |xs| ensures ValidAnalysis(xs[i]) { }
      }
      ColumnAvgInScale(xs, Mood);
      ColumnAvgInScale(xs, Anxiety);
      ColumnAvgInScale(xs, Stress);
      ColumnAvgInScale(xs, Energy);
      var mood := Avg(Column(xs, Mood));
      var anxiety := Avg(Column(xs, Anxiety));
      var stress := Avg(Column(xs, Stress));
      var energy := Avg(Column(xs, Energy));
      var overall := RealOverall(mood, anxiety, stress, energy);
      var row := DailyScore(userId, date, Some(mood), Some(anxiety), Some(stress), Some(energy), Some(overall), |xs|);
      assert ValidScore(row);
      Some(row)
  }

  /** The batch row's overall is the two-decimal rounding of the quarter
      sum of the four stored means, anxiety and stress counted inverted. */
  lemma BatchOverall(userId: UserId, date: Date, xs: seq<Analysis>)
    requires forall i :: 0 <= i < |xs| ==> ValidAnalysis(xs[i])
    ensures var r := BatchScore(userId, date, xs);
            r.Some? ==> var v := r.value;
                        v.mood.Some? && v.anxiety.Some? && v.stress.Some? && v.energy.Some?
                        && v.overall == Some(Round2((v.mood.value + v.energy.value + (10.0 - v.anxiety.value)
                                                     + (10.0 - v.stress.value)) / 4.0))
  {
  }

  // --------------------------------------------------------- divergence

  function MoodOnlyAnalysis(id: MessageId, mood: int): Analysis {
    Analysis(id, Sentiment.Neutral, Some(mood as real), Some(2.0), Some(4.0), Some(6.0), [], [], 0)
  }

  /** The mean of the moods 2 and 8 is 5. */
  lemma MeanOfTwoAndEight()
    ensures Avg([Some(2.0), Some(8.0)]) == 5.0
  {
    var xs: seq<Option<real>> := [Some(2.0), Some(8.0)];
    assert xs[1..] == [Some(8.0)];
    assert Numbers(xs) == [2.0, 8.0];
    assert Sum([2.0, 8.0]) == 10.0;
    assert MathRound(5.0 * 100.0) == 500;
  }

  /** Two analyses of one day with moods 2 and then 8: both forms count
      two messages, but the real-time row keeps the last mood (8) and the
      batch row the mean (5). */
  lemma RealtimeAndBatchDiverge(userId: UserId, date: Date)
    ensures var live := RealtimeUpsert(Some(RealtimeUpsert(None, userId, date, Metrics(2, 2, 4, 6))),
                                       userId, date, Metrics(8, 2, 4, 6));
            var batch := BatchScore(userId, date, [MoodOnlyAnalysis(0, 2), MoodOnlyAnalysis(1, 8)]);
            batch.Some? && live.messageCount == batch.value.messageCount == 2
            && live.mood == Some(8.0) && batch.value.mood == Some(5.0)
  {
    var xs := [MoodOnlyAnalysis(0, 2), MoodOnlyAnalysis(1, 8)];
    assert Column(xs, Mood) == [Some(2.0), Some(8.0)];
    MeanOfTwoAndEight();
  }
}
