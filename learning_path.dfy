/**
 * The read-only derivations of the LearningPath screen
 * (src/components/LearningPath.tsx): the headline stats, the score-history
 * series, the topic pie, its cell colours, the achievements and the input
 * of the recommendation request.  All of them are pure functions of the
 * progress record (absent until loaded) and the attempt history, which the
 * store returns newest first.
 */
module LearningPath {
  import opened Wrappers
  import opened Rounding
  import opened Progress

  function Min(a: int, b: int): int
  {
    if a <= b then a else b
  }

  /** The four headline figures; each falls back to 0 while there is no record. */
  datatype Stats = Stats(streak: int, quizzesTaken: int, avgScore: int, studyTime: int)

  /** `learningProgress?.field || 0`; the ensures spells out this definition field by field. */
  function StatsOf(progress: Option<LearningProgress>): (s: Stats)
    ensures progress.None? ==> s == Stats(0, 0, 0, 0)
    ensures progress.Some? ==>
      s.streak == progress.value.streakDays && s.quizzesTaken == progress.value.totalQuizzesTaken &&
      s.avgScore == progress.value.averageScore && s.studyTime == progress.value.studyTimeTotal
  {
    match progress
    case None => Stats(0, 0, 0, 0)
    case Some(p) => Stats(p.streakDays, p.totalQuizzesTaken, p.averageScore, p.studyTimeTotal)
  }

  /** `s.reverse()`. */
  function Reverse<T>(s: seq<T>): (r: seq<T>)
    ensures |r| == |s|
    ensures forall k :: 0 <= k < |s| ==> r[k] == s[|s| - 1 - k]
    decreases |s|
  {
    if s == [] then [] else Reverse(s[1..]) + [s[0]]
  }

  /** The attempts the score chart shows: the first ten of the newest-first history, oldest first. */
  function RecentOldestFirst(history: seq<QuizAttempt>): (r: seq<QuizAttempt>)
    ensures |r| == Min(10, |history|)
    ensures forall k :: 0 <= k < |r| ==> r[k] == history[|r| - 1 - k]
  {
    Reverse(history[..Min(10, |history|)])
  }

  /** With the history newest first, the charted attempts run oldest first and are the ten newest. */
  lemma RecentOldestFirstChronological(history: seq<QuizAttempt>)
    requires forall i, j :: 0 <= i < j < |history| ==> history[i].completedAt >= history[j].completedAt
    ensures var shown := RecentOldestFirst(history);
      |shown| == Min(10, |history|) &&
      (forall i, j :: 0 <= i < j < |shown| ==> shown[i].completedAt <= shown[j].completedAt) &&
      (forall k, m :: 0 <= k < |shown| && |shown| <= m < |history| ==> history[m].completedAt <= shown[k].completedAt)
  {
    var n := Min(10, |history|);
    var shown := RecentOldestFirst(history);
    forall k, m | 0 <= k < |shown| && n <= m < |history|
      ensures history[m].completedAt <= shown[k].completedAt
    {
      assert shown[k] == history[n - 1 - k];
    }
  }

  /** One point of the score chart, labelled "Quiz <quizNumber>". */
  datatype ScorePoint = ScorePoint(quizNumber: nat, score: int)

  function ScorePoints(attempts: seq<QuizAttempt>, first: nat): (points: seq<ScorePoint>)
    requires forall i :: 0 <= i < |attempts| ==> attempts[i].totalQuestions >= 1
    ensures |points| == |attempts|
    ensures forall k :: 0 <= k < |points| ==>
      points[k] == ScorePoint(first + k, Percentage(attempts[k].score, attempts[k].totalQuestions))
    decreases |attempts|
  {
    if attempts == [] then []
    else
      [ScorePoint(first, Percentage(attempts[0].score, attempts[0].totalQuestions))] +
      ScorePoints(attempts[1..], first + 1)
  }

  /**
   * The score-history series: at most ten points, point k (from 0) numbered
   * k + 1 and holding the rounded percentage of the k-th oldest of the ten
   * newest attempts.
   */
  function ScoreHistory(history: seq<QuizAttempt>): (points: seq<ScorePoint>)
    requires forall i :: 0 <= i < |history| && i < 10 ==> history[i].totalQuestions >= 1
    ensures |points| == Min(10, |history|)
    ensures forall k :: 0 <= k < |points| ==>
      var a := history[|points| - 1 - k];
      points[k] == ScorePoint(k + 1, Percentage(a.score, a.totalQuestions))
  {
    ScorePoints(RecentOldestFirst(history), 1)
  }

  /** The pie label: names over 15 characters keep their first 15 and gain "...". */
  function ShortName(name: string): (r: string)
    ensures |name| <= 15 ==> r == name
    ensures |name| > 15 ==> |r| == 18 && r[..15] == name[..15] && r[15..] == "..."
  {
    if |name| > 15 then name[..15] + "..." else name
  }

  /** One slice of the topic pie. */
  datatype TopicSlice = TopicSlice(name: string, value: int)

  function TopicSlices(topics: seq<TopicProgress>): (slices: seq<TopicSlice>)
    ensures |slices| == |topics|
    ensures forall i :: 0 <= i < |topics| ==>
      slices[i] == TopicSlice(ShortName(topics[i].topic), topics[i].masteryLevel)
    decreases |topics|
  {
    if topics == [] then []
    else [TopicSlice(ShortName(topics[0].topic), topics[0].masteryLevel)] + TopicSlices(topics[1..])
  }

  /**
   * The topic pie: the first five topics of the record with their mastery
   * levels, and nothing while there is no record.
   */
  function TopicDistribution(progress: Option<LearningProgress>): (slices: seq<TopicSlice>)
    ensures progress.None? ==> slices == []
    ensures progress.Some? ==>
      var topics := progress.value.topics;
      |slices| == Min(5, |topics|) &&
      forall i :: 0 <= i < |slices| ==>
        slices[i] == TopicSlice(ShortName(topics[i].topic), topics[i].masteryLevel)
  {
    match progress
    case None => []
    case Some(p) => TopicSlices(p.topics[..Min(5, |p.topics|)])
  }

  /** The pie palette. */
  const Colours: seq<string> := ["#3b82f6", "#22c55e", "#f59e0b", "#ef4444", "#8b5cf6"]

  /** Cell i of the pie takes palette entry i mod 5. */
  function CellColour(i: nat): (c: string)
    ensures c in Colours
  {
    Colours[i % |Colours|]
  }

  /** The palette repeats every five cells, and the five cells the pie can hold all differ. */
  lemma CellColours(i: nat, j: nat)
    ensures CellColour(i + 5) == CellColour(i)
    ensures i < j < 5 ==> CellColour(i) != CellColour(j)
  {
    assert (i + 5) % 5 == i % 5;
  }

  /** The six achievement badges. */
  datatype Achievements = Achievements(
    firstSteps: bool,        // one quiz
    quizMaster: bool,        // ten quizzes
    streakStarter: bool,     // streak of 3
    weekWarrior: bool,       // streak of 7
    highAchiever: bool,      // some attempt at 90 % or more
    dedicatedLearner: bool)  // 100 minutes of study

  /**
   * `score / totalQuestions >= 0.9` on JavaScript numbers: a zero total gives
   * Infinity for a positive score and NaN (never at least 0.9) otherwise.
   */
  predicate ReachesNinetyPercent(a: QuizAttempt)
  {
    if a.totalQuestions > 0 then 10 * a.score >= 9 * a.totalQuestions
    else if a.totalQuestions == 0 then a.score > 0
    else 10 * a.score <= 9 * a.totalQuestions
  }

  /** The badges unlocked by the stats and the history; each larger tier implies the smaller one. */
  function AchievementsOf(stats: Stats, history: seq<QuizAttempt>): (r: Achievements)
    ensures r.quizMaster ==> r.firstSteps
    ensures r.weekWarrior ==> r.streakStarter
  {
    Achievements(
      stats.quizzesTaken >= 1,
      stats.quizzesTaken >= 10,
      stats.streak >= 3,
      stats.streak >= 7,
      exists i :: 0 <= i < |history| && ReachesNinetyPercent(history[i]),
      stats.studyTime >= 100)
  }

  /** Every badge unlocked in `a` is unlocked in `b`. */
  predicate NoneRelocked(a: Achievements, b: Achievements)
  {
    (a.firstSteps ==> b.firstSteps) && (a.quizMaster ==> b.quizMaster) &&
    (a.streakStarter ==> b.streakStarter) && (a.weekWarrior ==> b.weekWarrior) &&
    (a.highAchiever ==> b.highAchiever) && (a.dedicatedLearner ==> b.dedicatedLearner)
  }

  /** Raising any stat, or adding attempts to the history, never locks a badge again. */
  lemma AchievementsMonotone(s1: Stats, h1: seq<QuizAttempt>, s2: Stats, h2: seq<QuizAttempt>)
    requires s1.quizzesTaken <= s2.quizzesTaken && s1.streak <= s2.streak && s1.studyTime <= s2.studyTime
    requires forall a :: a in h1 ==> a in h2
    ensures NoneRelocked(AchievementsOf(s1, h1), AchievementsOf(s2, h2))
  {
    if exists i :: 0 <= i < |h1| && ReachesNinetyPercent(h1[i]) {
      var i :| 0 <= i < |h1| && ReachesNinetyPercent(h1[i]);
      assert h1[i] in h2;
      var j :| 0 <= j < |h2| && h2[j] == h1[i];
    }
  }

  /** The study-recommendation request: all topics, the weak topics, and the names of the first five topics. */
  datatype RecommendationRequest = RecommendationRequest(
    topics: seq<TopicProgress>, weakTopics: seq<string>, recentTopics: seq<string>)

  function TopicNames(topics: seq<TopicProgress>): (names: seq<string>)
    ensures |names| == |topics|
    ensures forall i :: 0 <= i < |topics| ==> names[i] == topics[i].topic
    decreases |topics|
  {
    if topics == [] then [] else [topics[0].topic] + TopicNames(topics[1..])
  }

  /** Recommendations are requested only for a loaded record that has topics. */
  function RecommendationRequestFor(progress: Option<LearningProgress>): (r: Option<RecommendationRequest>)
    ensures r.Some? <==> progress.Some? && |progress.value.topics| > 0
    ensures r.Some? ==>
      var p := progress.value;
      r.value.topics == p.topics && r.value.weakTopics == p.weakTopics &&
      |r.value.recentTopics| == Min(5, |p.topics|) &&
      forall i :: 0 <= i < |r.value.recentTopics| ==> r.value.recentTopics[i] == p.topics[i].topic
  {
    match progress
    case None => None
    case Some(p) =>
      if |p.topics| > 0 then
        Some(RecommendationRequest(p.topics, p.weakTopics, TopicNames(p.topics[..Min(5, |p.topics|)])))
      else None
  }
}
