/**
 * The learning-progress record and the rule that folds one finished quiz
 * attempt into it (`updateLearningProgressAfterQuiz` in
 * src/services/firebaseService.ts).
 *
 * Timestamps are integer milliseconds since the epoch.  The rule reads the
 * wall clock once ("now"), so `now` is a parameter here; the attempt's own
 * `completedAt` plays no part in it.  Streak days are whole 24-hour periods
 * since the last study time, not calendar days.
 */
module Progress {
  import opened Rounding

  /** The `1000 * 60 * 60 * 24` divisor of the streak rule. */
  const MillisPerDay: int := 86_400_000

  /** Seconds per minute, the divisor of the study-time update. */
  const SecondsPerMinute: int := 60

  datatype TopicProgress = TopicProgress(
    topic: string,
    subject: string,
    masteryLevel: int,
    quizzesTaken: int,
    averageScore: int,
    lastStudied: int,
    conceptsCovered: seq<string>)

  datatype LearningProgress = LearningProgress(
    userId: string,
    topics: seq<TopicProgress>,
    totalQuizzesTaken: int,
    averageScore: int,
    streakDays: int,
    lastStudyDate: int,
    studyTimeTotal: int,   // minutes
    weakTopics: seq<string>,
    strongTopics: seq<string>)

  datatype QuizAttempt = QuizAttempt(
    quizId: string,
    userId: string,
    answers: seq<int>,
    score: int,
    totalQuestions: int,
    completedAt: int,
    timeSpent: int)        // seconds

  /** An attempt as the quiz screens produce it. */
  predicate WellFormedAttempt(a: QuizAttempt)
  {
    a.totalQuestions >= 1 && 0 <= a.score <= a.totalQuestions && a.timeSpent >= 0
  }

  /** The ranges every stored progress record keeps. */
  predicate ValidProgress(p: LearningProgress)
  {
    p.totalQuizzesTaken >= 0 && 0 <= p.averageScore <= 100 &&
    p.streakDays >= 0 && p.studyTimeTotal >= 0
  }

  /** The zeroed record written for a user who has none yet, stamped with its creation time. */
  function InitialProgress(userId: string, createdAt: int): (p: LearningProgress)
    ensures ValidProgress(p)
    ensures p.userId == userId && p.lastStudyDate == createdAt
    ensures p.totalQuizzesTaken == 0 && p.averageScore == 0 && p.streakDays == 0 && p.studyTimeTotal == 0
    ensures p.topics == [] && p.weakTopics == [] && p.strongTopics == []
  {
    LearningProgress(userId, [], 0, 0, 0, createdAt, 0, [], [])
  }

  /** Whole 24-hour periods from `lastStudy` to `now`, rounded towards minus infinity. */
  function DaysSince(lastStudy: int, now: int): (d: int)
    ensures MillisPerDay * d <= now - lastStudy < MillisPerDay * d + MillisPerDay
  {
    (now - lastStudy) / MillisPerDay
  }

  /**
   * The three-way streak rule: same period keeps, the next period extends,
   * anything else restarts.  A streak never turns negative, and once a new
   * period has begun it is at least 1.
   */
  function NextStreak(streak: int, days: int): (r: int)
    ensures r == streak || r == streak + 1 || r == 1
    ensures streak >= 0 ==> r >= 0
    ensures streak >= 0 && days != 0 ==> r >= 1
  {
    if days == 0 then streak
    else if days == 1 then streak + 1
    else 1
  }

  /**
   * The new running average: the old average weighted by the quizzes taken so
   * far, plus the attempt's percentage, over one more quiz, then rounded.
   */
  function AverageAfter(average: int, taken: int, score: int, total: int): (r: int)
    requires taken >= 0 && total >= 1
    // r is the nearest integer to (average * taken + 100 * score / total) / (taken + 1)
    ensures 2 * (total * (taken + 1)) * r
         <= 2 * (average * taken * total + 100 * score) + total * (taken + 1)
         <  2 * (total * (taken + 1)) * r + 2 * (total * (taken + 1))
  {
    RoundDiv(average * taken * total + 100 * score, total * (taken + 1))
  }

  /** `Math.round(seconds / 60)`: the nearest whole minute, half a minute rounding up. */
  function MinutesOf(seconds: int): (m: int)
    ensures 60 * m - 30 <= seconds < 60 * m + 30
    ensures seconds >= 0 ==> m >= 0
  {
    RoundDiv(seconds, SecondsPerMinute)
  }

  /**
   * The next progress record after one attempt, read at wall-clock time
   * `now`.  The attempt counts once, the study date becomes `now` on every
   * branch, the study time grows by the rounded minutes, and the user, the
   * topic list and the weak and strong lists are not touched.
   */
  function IngestAttempt(p: LearningProgress, a: QuizAttempt, now: int): (q: LearningProgress)
    requires a.totalQuestions >= 1 && p.totalQuizzesTaken >= 0
    ensures q.totalQuizzesTaken == p.totalQuizzesTaken + 1
    ensures q.lastStudyDate == now
    ensures q.studyTimeTotal == p.studyTimeTotal + MinutesOf(a.timeSpent)
    ensures q.userId == p.userId && q.topics == p.topics
    ensures q.weakTopics == p.weakTopics && q.strongTopics == p.strongTopics
  {
    p.(totalQuizzesTaken := p.totalQuizzesTaken + 1,
       averageScore := AverageAfter(p.averageScore, p.totalQuizzesTaken, a.score, a.totalQuestions),
       streakDays := NextStreak(p.streakDays, DaysSince(p.lastStudyDate, now)),
       lastStudyDate := now,
       studyTimeTotal := p.studyTimeTotal + MinutesOf(a.timeSpent))
  }

  /** Ingesting the same attempt twice counts it twice: the update is not idempotent. */
  lemma IngestNotIdempotent(p: LearningProgress, a: QuizAttempt, now: int)
    requires a.totalQuestions >= 1 && p.totalQuizzesTaken >= 0
    ensures var once := IngestAttempt(p, a, now);
      IngestAttempt(once, a, now).totalQuizzesTaken == p.totalQuizzesTaken + 2 &&
      IngestAttempt(once, a, now) != once
  {
  }

  /** The new average is the old weighted average with the attempt's percentage, and stays in [0, 100]. */
  lemma AverageStaysInRange(average: int, taken: int, score: int, total: int)
    requires taken >= 0 && total >= 1
    requires 0 <= average <= 100 && 0 <= score <= total
    ensures 0 <= AverageAfter(average, taken, score, total) <= 100
  {
    var num, den := average * taken * total + 100 * score, total * (taken + 1);
    assert 0 <= average * taken * total <= 100 * taken * total by {
      assert 0 <= taken * total;
      assert average * (taken * total) <= 100 * (taken * total);
    }
    assert 100 * score <= 100 * total;
    assert 100 * den == 100 * taken * total + 100 * total;
    RoundQuotientBounds(num, den, 100);
  }

  /** Ingesting a well-formed attempt keeps every range of a valid record. */
  lemma IngestPreservesValid(p: LearningProgress, a: QuizAttempt, now: int)
    requires ValidProgress(p) && WellFormedAttempt(a)
    ensures ValidProgress(IngestAttempt(p, a, now))
  {
    AverageStaysInRange(p.averageScore, p.totalQuizzesTaken, a.score, a.totalQuestions);
  }

  /**
   * The streak rule stated on the clock: within 24 hours of the last study
   * time the streak is kept, within the following 24 hours it grows by one,
   * and earlier or later times restart it at 1.
   */
  lemma StreakLaw(p: LearningProgress, a: QuizAttempt, now: int)
    requires a.totalQuestions >= 1 && p.totalQuizzesTaken >= 0
    ensures var s := IngestAttempt(p, a, now).streakDays;
      (p.lastStudyDate <= now < p.lastStudyDate + MillisPerDay ==> s == p.streakDays) &&
      (p.lastStudyDate + MillisPerDay <= now < p.lastStudyDate + 2 * MillisPerDay ==> s == p.streakDays + 1) &&
      (now < p.lastStudyDate || p.lastStudyDate + 2 * MillisPerDay <= now ==> s == 1)
  {
    var d := DaysSince(p.lastStudyDate, now);
    if now < p.lastStudyDate {
      assert d < 0;
    } else if p.lastStudyDate + 2 * MillisPerDay <= now {
      assert d >= 2;
    } else if p.lastStudyDate + MillisPerDay <= now {
      assert d == 1;
    } else {
      assert d == 0;
    }
  }

  /**
   * A record created by the first read and ingested within 24 hours of its
   * creation keeps the zero streak: the first quiz does not start a streak.
   */
  lemma FreshRecordKeepsZeroStreak(userId: string, createdAt: int, a: QuizAttempt, now: int)
    requires a.totalQuestions >= 1
    requires createdAt <= now < createdAt + MillisPerDay
    ensures IngestAttempt(InitialProgress(userId, createdAt), a, now).streakDays == 0
  {
    StreakLaw(InitialProgress(userId, createdAt), a, now);
  }

  /** Study time never decreases when the attempt's duration is non-negative. */
  lemma StudyTimeNonDecreasing(p: LearningProgress, a: QuizAttempt, now: int)
    requires a.totalQuestions >= 1 && p.totalQuizzesTaken >= 0 && a.timeSpent >= 0
    ensures IngestAttempt(p, a, now).studyTimeTotal >= p.studyTimeTotal
  {
  }

  /**
   * Folding a sequence of (attempt, now) pairs into a record, in order: each
   * attempt counts once, the study date is the last event's time, and the
   * user and topic lists stay as they were.
   */
  function IngestAll(p: LearningProgress, events: seq<(QuizAttempt, int)>): (q: LearningProgress)
    requires p.totalQuizzesTaken >= 0
    requires forall i :: 0 <= i < |events| ==> WellFormedAttempt(events[i].0)
    ensures q.totalQuizzesTaken == p.totalQuizzesTaken + |events|
    ensures events == [] ==> q == p
    ensures events != [] ==> q.lastStudyDate == events[|events| - 1].1
    ensures q.userId == p.userId && q.topics == p.topics
    ensures q.weakTopics == p.weakTopics && q.strongTopics == p.strongTopics
    decreases |events|
  {
    if events == [] then p
    else
      assert WellFormedAttempt(events[0].0);
      IngestAll(IngestAttempt(p, events[0].0, events[0].1), events[1..])
  }

  /** A run of well-formed attempts keeps a valid record valid. */
  lemma {:induction false} IngestAllPreservesValid(p: LearningProgress, events: seq<(QuizAttempt, int)>)
    requires ValidProgress(p)
    requires forall i :: 0 <= i < |events| ==> WellFormedAttempt(events[i].0)
    ensures ValidProgress(IngestAll(p, events))
    decreases |events|
  {
    if events != [] {
      var q := IngestAttempt(p, events[0].0, events[0].1);
      IngestPreservesValid(p, events[0].0, events[0].1);
      IngestAllPreservesValid(q, events[1..]);
    }
  }

  /**
   * The worked example: 8/10 one day after the last study time, 5/10 an hour
   * later, then 10/10 a further 48 hours later, which restarts the streak.
   */
  lemma ThreeAttemptScenario(userId: string, t0: int)
    ensures var p0 := LearningProgress(userId, [], 0, 0, 0, t0, 0, [], []);
      var p1 := IngestAttempt(p0, QuizAttempt("q", userId, [], 8, 10, 0, 600), t0 + MillisPerDay);
      var p2 := IngestAttempt(p1, QuizAttempt("q", userId, [], 5, 10, 0, 300), t0 + MillisPerDay + 3_600_000);
      var p3 := IngestAttempt(p2, QuizAttempt("q", userId, [], 10, 10, 0, 0), t0 + 3 * MillisPerDay + 3_600_000);
      p1.totalQuizzesTaken == 1 && p1.averageScore == 80 && p1.streakDays == 1 &&
      p1.lastStudyDate == t0 + MillisPerDay && p1.studyTimeTotal == 10 &&
      p2.totalQuizzesTaken == 2 && p2.averageScore == 65 && p2.streakDays == 1 && p2.studyTimeTotal == 15 &&
      p3.streakDays == 1 && p3.totalQuizzesTaken == 3
  {
    var p0 := LearningProgress(userId, [], 0, 0, 0, t0, 0, [], []);
    var p1 := IngestAttempt(p0, QuizAttempt("q", userId, [], 8, 10, 0, 600), t0 + MillisPerDay);
    assert DaysSince(t0, t0 + MillisPerDay) == 1;
    assert AverageAfter(0, 0, 8, 10) == 80;
    assert MinutesOf(600) == 10;
    var p2 := IngestAttempt(p1, QuizAttempt("q", userId, [], 5, 10, 0, 300), t0 + MillisPerDay + 3_600_000);
    assert DaysSince(t0 + MillisPerDay, t0 + MillisPerDay + 3_600_000) == 0;
    assert AverageAfter(80, 1, 5, 10) == 65;
    assert MinutesOf(300) == 5;
    assert DaysSince(t0 + MillisPerDay + 3_600_000, t0 + 3 * MillisPerDay + 3_600_000) == 2;
  }

  /**
   * Streak periods are 24-hour windows, not calendar days: a study time two
   * calendar days after the last one, but less than 48 hours after it,
   * extends the streak instead of restarting it.
   */
  lemma TwoCalendarDaysWithin48Hours(p: LearningProgress, a: QuizAttempt)
    requires a.totalQuestions >= 1 && p.totalQuizzesTaken >= 0
    ensures IngestAttempt(p, a, p.lastStudyDate + 2 * MillisPerDay - 3_600_000).streakDays == p.streakDays + 1
  {
    StreakLaw(p, a, p.lastStudyDate + 2 * MillisPerDay - 3_600_000);
  }
}
