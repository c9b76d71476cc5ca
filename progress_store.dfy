/**
 * The progress store and the read-then-write around the ingest rule
 * (`getLearningProgress`, `updateLearningProgress` and
 * `updateLearningProgressAfterQuiz` in src/services/firebaseService.ts).
 *
 * The hosted document collection is a map from user id to record.  Whether
 * a read or a write reaches the store is a parameter: a failed read makes
 * `getLearningProgress` answer null, a failed write is logged and dropped.
 */
module ProgressStore {
  import opened Wrappers
  import opened Progress

  class ProgressStore {
    var records: map<string, LearningProgress>

    /** Every stored record is keyed by its own user and keeps the record ranges. */
    ghost predicate Valid()
      reads this
    {
      forall u :: u in records ==> records[u].userId == u && ValidProgress(records[u])
    }

    constructor ()
      ensures Valid() && records == map[]
    {
      records := map[];
    }

    /** The record the next read will see for `userId`: the stored one, or a fresh zeroed one. */
    ghost function RecordFor(userId: string, now: int): (p: LearningProgress)
      reads this
      requires Valid()
      ensures ValidProgress(p) && p.userId == userId
    {
      if userId in records then records[userId] else InitialProgress(userId, now)
    }

    /**
     * Reads the user's record; a user without one gets a zeroed record that
     * is stored and returned.  A failed read answers None and stores nothing.
     */
    method GetLearningProgress(userId: string, now: int, storeAvailable: bool) returns (p: Option<LearningProgress>)
      requires Valid()
      modifies this
      ensures Valid()
      ensures !storeAvailable ==> p == None && records == old(records)
      ensures storeAvailable ==> p == Some(old(RecordFor(userId, now)))
      ensures storeAvailable ==> records == old(records)[userId := old(RecordFor(userId, now))]
    {
      if !storeAvailable {
        return None;
      }
      if userId in records {
        p := Some(records[userId]);
        assert records[userId := records[userId]] == records;
      } else {
        var initial := InitialProgress(userId, now);
        records := records[userId := initial];
        p := Some(initial);
      }
    }

    /**
     * Folds a finished attempt into its user's record at wall-clock time
     * `now`.  When the read fails nothing is updated; when only the final
     * write fails, the zeroed record the read may have created stays.
     */
    method UpdateLearningProgressAfterQuiz(attempt: QuizAttempt, now: int, readOk: bool, writeOk: bool)
      requires Valid() && WellFormedAttempt(attempt)
      modifies this
      ensures Valid()
      ensures !readOk ==> records == old(records)
      ensures readOk && !writeOk ==>
        records == old(records)[attempt.userId := old(RecordFor(attempt.userId, now))]
      ensures readOk && writeOk ==>
        records == old(records)[attempt.userId := IngestAttempt(old(RecordFor(attempt.userId, now)), attempt, now)]
    {
      var progress := GetLearningProgress(attempt.userId, now, readOk);
      if progress.None? {
        return;
      }
      if writeOk {
        var next := IngestAttempt(progress.value, attempt, now);
        IngestPreservesValid(progress.value, attempt, now);
        records := records[attempt.userId := next];
      }
    }
  }
}
