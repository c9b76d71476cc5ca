/**
 * Values shared by the two quiz screens (src/components/QuizGenerator.tsx and
 * src/components/Quizzes.tsx): questions, uploaded files, and the rules both
 * screens repeat — counting correct answers and dropping a removed file.
 */
module QuizModel {
  import opened Wrappers

  datatype Question = Question(
    id: string,
    question: string,
    options: seq<string>,
    correctAnswer: int,
    explanation: string,
    topic: string)

  /** A quiz as the screens keep it in the shared quiz list; a stored quiz may lack its question list. */
  datatype Quiz = Quiz(title: string, subject: string, questions: Option<seq<Question>>)

  datatype FileStatus = Pending | Processing | Ready | Error

  /** An entry of the upload list; `file` stands for the identity of the browser's File object. */
  datatype UploadedFile = UploadedFile(file: nat, name: string, content: string, status: FileStatus)

  /** The answers array right after generation: one null per question. */
  function NoAnswers(n: nat): (answers: seq<Option<int>>)
    ensures |answers| == n && forall i :: 0 <= i < n ==> answers[i] == None
  {
    seq(n, _ => None)
  }

  /** Question i counts as correct: an answer is stored for it and equals its correct option. */
  predicate Matches(questions: seq<Question>, answers: seq<Option<int>>, i: int)
    requires 0 <= i < |questions|
  {
    i < |answers| && answers[i] == Some(questions[i].correctAnswer)
  }

  /** `calculateScore`: how many questions carry their correct answer. */
  function CountCorrect(questions: seq<Question>, answers: seq<Option<int>>): (c: nat)
    ensures c <= |questions|
    decreases |questions|
  {
    if questions == [] then 0
    else
      CountCorrect(questions[..|questions| - 1], answers) +
      (if Matches(questions, answers, |questions| - 1) then 1 else 0)
  }

  /** The score is full exactly when every question carries its correct answer. */
  lemma {:induction false} FullScoreIffAllCorrect(questions: seq<Question>, answers: seq<Option<int>>)
    ensures CountCorrect(questions, answers) == |questions| <==>
      forall i :: 0 <= i < |questions| ==> Matches(questions, answers, i)
    decreases |questions|
  {
    if questions != [] {
      var n := |questions| - 1;
      var init := questions[..n];
      FullScoreIffAllCorrect(init, answers);
      assert forall i :: 0 <= i < n ==> (Matches(init, answers, i) <==> Matches(questions, answers, i));
      if CountCorrect(questions, answers) == |questions| {
        assert CountCorrect(init, answers) == n && Matches(questions, answers, n);
      }
    }
  }

  /** A null (unanswered) entry never counts: with no answers the score is 0. */
  lemma {:induction false} UnansweredScoresZero(questions: seq<Question>, answers: seq<Option<int>>)
    requires forall i :: 0 <= i < |answers| ==> answers[i] == None
    ensures CountCorrect(questions, answers) == 0
    decreases |questions|
  {
    if questions != [] {
      UnansweredScoresZero(questions[..|questions| - 1], answers);
    }
  }

  /**
   * Writing one answer slot changes the score only through that slot: it
   * loses the slot's old point, if any, and gains its new one, if any.
   */
  lemma {:induction false} SelectChangesOneSlot(questions: seq<Question>, answers: seq<Option<int>>, k: int, choice: int)
    requires 0 <= k < |questions| && k < |answers|
    ensures CountCorrect(questions, answers[k := Some(choice)]) ==
      CountCorrect(questions, answers)
      - (if answers[k] == Some(questions[k].correctAnswer) then 1 else 0)
      + (if choice == questions[k].correctAnswer then 1 else 0)
    decreases |questions|
  {
    var n := |questions| - 1;
    var updated := answers[k := Some(choice)];
    if k < n {
      SelectChangesOneSlot(questions[..n], answers, k, choice);
      assert Matches(questions, updated, n) == Matches(questions, answers, n);
    } else {
      UnchangedBelow(questions[..n], answers, updated);
    }
  }

  /** Answers that agree on the first |questions| slots give the same score. */
  lemma {:induction false} UnchangedBelow(questions: seq<Question>, a: seq<Option<int>>, b: seq<Option<int>>)
    requires |a| == |b| >= |questions|
    requires forall i :: 0 <= i < |questions| ==> a[i] == b[i]
    ensures CountCorrect(questions, a) == CountCorrect(questions, b)
    decreases |questions|
  {
    if questions != [] {
      UnchangedBelow(questions[..|questions| - 1], a, b);
    }
  }

  /** No answer slot is still null. */
  predicate AllAnswered(answers: seq<Option<int>>)
  {
    forall i :: 0 <= i < |answers| ==> answers[i].Some?
  }

  /** `uploadedFiles.filter(f => f.file !== file)`. */
  function WithoutFile(files: seq<UploadedFile>, file: nat): (r: seq<UploadedFile>)
    ensures |r| <= |files|
    ensures forall e :: e in r <==> e in files && e.file != file
    decreases |files|
  {
    if files == [] then []
    else (if files[0].file == file then [] else [files[0]]) + WithoutFile(files[1..], file)
  }

  /**
   * The filter works entry by entry and keeps order and repetitions: on a
   * joined list it is the join of the filtered parts, and a single entry is
   * kept exactly when it is not the removed file.
   */
  lemma {:induction false} WithoutFileAppend(a: seq<UploadedFile>, b: seq<UploadedFile>, file: nat)
    ensures WithoutFile(a + b, file) == WithoutFile(a, file) + WithoutFile(b, file)
    decreases |a|
  {
    if a == [] {
      assert a + b == b;
    } else {
      var ab := a + b;
      assert ab[0] == a[0] && ab[1..] == a[1..] + b;
      WithoutFileAppend(a[1..], b, file);
      assert WithoutFile(ab, file) == (if a[0].file == file then [] else [a[0]]) + WithoutFile(ab[1..], file);
    }
  }

  /** A single entry is kept exactly when it is not the removed file. */
  lemma WithoutFileSingle(e: UploadedFile, file: nat)
    ensures WithoutFile([e], file) == if e.file == file then [] else [e]
  {
    assert [e][1..] == [];
  }

  /** Removing a file that is not in the list leaves the list as it was. */
  lemma {:induction false} WithoutAbsentFile(files: seq<UploadedFile>, file: nat)
    requires forall i :: 0 <= i < |files| ==> files[i].file != file
    ensures WithoutFile(files, file) == files
    decreases |files|
  {
    if files != [] {
      WithoutAbsentFile(files[1..], file);
    }
  }
}
