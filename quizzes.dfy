/**
 * The Quizzes screen (src/components/Quizzes.tsx): the same quiz-taking state
 * as the QuizGenerator screen plus the active view (upload, preview,
 * taking), inline Previous/Next updates, an unguarded submit, a two-colour
 * results badge and the "Total Questions" figure over the app-wide quiz list.
 */
module Quizzes {
  import opened Wrappers
  import opened Rounding
  import opened QuizModel

  datatype View = Upload | Preview | Taking

  datatype Colour = Orange | Green

  /**
   * The ratio test `score / total >= 0.7` against the displayed percentage:
   * a ratio of at least 0.7 shows at least 70 %, and a lower one at most 70 %.
   */
  lemma RatioTestAgainstPercentage(score: int, total: int)
    requires total >= 1
    ensures 10 * score >= 7 * total ==> Percentage(score, total) >= 70
    ensures 10 * score < 7 * total ==> Percentage(score, total) <= 70
  {
    var r := Percentage(score, total);
    // 2 * total * r <= 200 * score + total < 2 * total * r + 2 * total
    if 10 * score >= 7 * total {
      // 200 * score + total >= 141 * total, so 2 * total * r + 2 * total > 141 * total
      assert total * (2 * r + 2) > total * 141;
      FactorOrder(total, 141, 2 * r + 1);
    } else {
      // 200 * score + total < 141 * total, so 2 * total * r < 141 * total
      assert total * (2 * r) <= total * 140 + total - 1;
      FactorOrder(total, 2 * r, 140);
    }
  }

  /**
   * The results badge as written: green when score / total is at least 0.7.
   * It agrees with the percentage the badge displays everywhere except at
   * exactly 70 %, where a ratio just below 0.7 is rounded up to 70.
   */
  function ResultColour(score: int, total: int): (c: Colour)
    requires total >= 1
    ensures c == Green ==> Percentage(score, total) >= 70
    ensures Percentage(score, total) >= 71 ==> c == Green
  {
    RatioTestAgainstPercentage(score, total);
    if 10 * score >= 7 * total then Green else Orange
  }

  /**
   * The results badge coloured by the percentage it displays.  The ensures
   * is the definition itself, stated for readers of the finding.
   */
  function ResultColourCorrected(score: int, total: int): (c: Colour)
    requires total >= 1
    ensures c == Green <==> Percentage(score, total) >= 70
  {
    if Percentage(score, total) >= 70 then Green else Orange
  }

  /**
   * As written, the badge can display "70%" in orange: 16 of 23 is 0.6956…,
   * which rounds to 70 but is below 0.7.
   */
  lemma ColourDisagreesWithShownPercentage()
    ensures Percentage(16, 23) == 70
    ensures ResultColour(16, 23) == Orange
  {
    assert RoundDiv(1600, 23) == 70;
  }

  /** `q.questions?.length || 0`: a quiz without a question list counts 0. */
  function QuestionCount(quiz: Quiz): (n: nat)
    ensures quiz.questions.None? ==> n == 0
    ensures quiz.questions.Some? ==> n == |quiz.questions.value|
  {
    if quiz.questions.Some? then |quiz.questions.value| else 0
  }

  /**
   * "Total Questions": the question counts of all listed quizzes, added up.
   * It covers every listed quiz, and is 0 when no quiz has a question list.
   */
  function TotalQuestions(quizzes: seq<Quiz>): (t: nat)
    ensures forall k :: 0 <= k < |quizzes| ==> QuestionCount(quizzes[k]) <= t
    ensures (forall k :: 0 <= k < |quizzes| ==> quizzes[k].questions.None?) ==> t == 0
    decreases |quizzes|
  {
    if quizzes == [] then 0
    else
      var rest := quizzes[1..];
      assert forall k :: 1 <= k < |quizzes| ==> quizzes[k] == rest[k - 1];
      QuestionCount(quizzes[0]) + TotalQuestions(rest)
  }

  /** The total over two lists joined is the sum of their totals. */
  lemma {:induction false} TotalQuestionsAppend(a: seq<Quiz>, b: seq<Quiz>)
    ensures TotalQuestions(a + b) == TotalQuestions(a) + TotalQuestions(b)
    decreases |a|
  {
    if a != [] {
      assert (a + b)[0] == a[0] && (a + b)[1..] == a[1..] + b;
      TotalQuestionsAppend(a[1..], b);
    } else {
      assert a + b == b;
    }
  }

  /** Putting a generated quiz at the head of the list raises the total by its number of questions. */
  lemma TotalAfterGenerate(questions: seq<Question>, title: string, subject: string, quizzes: seq<Quiz>)
    ensures TotalQuestions([Quiz(title, subject, Some(questions))] + quizzes) == TotalQuestions(quizzes) + |questions|
  {
    TotalQuestionsAppend([Quiz(title, subject, Some(questions))], quizzes);
  }

  class QuizzesScreen {
    var uploadedFiles: seq<UploadedFile>
    var selectedFile: Option<UploadedFile>
    var quizzes: seq<Quiz>                    // the app-wide quiz list
    var generatedQuiz: Option<seq<Question>>  // the questions of the generated quiz
    var currentQuestionIndex: int
    var selectedAnswers: seq<Option<int>>
    var showResults: bool
    var quizStarted: bool
    var activeView: View

    /**
     * The upload view is shown exactly when no quiz is loaded; a loaded quiz
     * has one answer slot per question and the index on one of them.
     */
    ghost predicate Valid()
      reads this
    {
      currentQuestionIndex >= 0 &&
      (generatedQuiz.None? <==> activeView == Upload) &&
      (quizStarted ==> activeView == Taking) &&
      (generatedQuiz.None? ==>
        currentQuestionIndex == 0 && selectedAnswers == [] && !showResults && !quizStarted) &&
      (generatedQuiz.Some? ==>
        |selectedAnswers| == |generatedQuiz.value| &&
        (currentQuestionIndex == 0 || currentQuestionIndex < |generatedQuiz.value|))
    }

    /** The question view: a loaded quiz, the taking view, no results, the current question on screen. */
    ghost predicate InTakingView()
      reads this
    {
      activeView == Taking && generatedQuiz.Some? && !showResults &&
      currentQuestionIndex < |generatedQuiz.value|
    }

    constructor (quizzes: seq<Quiz>)
      ensures Valid()
      ensures uploadedFiles == [] && selectedFile == None && this.quizzes == quizzes
      ensures generatedQuiz == None && currentQuestionIndex == 0 && selectedAnswers == []
      ensures !showResults && !quizStarted && activeView == Upload
    {
      uploadedFiles, selectedFile, this.quizzes := [], None, quizzes;
      generatedQuiz, currentQuestionIndex, selectedAnswers := None, 0, [];
      showResults, quizStarted, activeView := false, false, Upload;
    }

    /** Clicking a file in the upload list selects it only once it is ready. */
    method SelectFile(item: UploadedFile)
      requires Valid() && item in uploadedFiles
      modifies this`selectedFile
      ensures Valid()
      ensures selectedFile == (if item.status == Ready then Some(item) else old(selectedFile))
    {
      if item.status == Ready {
        selectedFile := Some(item);
      }
    }

    /** `handleRemoveFile`: drops every entry for the file and clears the selection if it was that file. */
    method RemoveFile(file: nat)
      requires Valid()
      modifies this`uploadedFiles, this`selectedFile
      ensures Valid()
      ensures uploadedFiles == WithoutFile(old(uploadedFiles), file)
      ensures selectedFile == (if old(selectedFile).Some? && old(selectedFile).value.file == file
                               then None else old(selectedFile))
    {
      uploadedFiles := WithoutFile(uploadedFiles, file);
      if selectedFile.Some? && selectedFile.value.file == file {
        selectedFile := None;
      }
    }

    /**
     * `handleGenerateQuiz`, offered in the upload view.  `generated` is the
     * outcome of generating and saving the quiz: None when either failed.
     * This screen has no subject input, so its settings keep the empty
     * subject and every saved quiz falls back to "General".
     */
    method GenerateQuiz(signedIn: bool, generated: Option<seq<Question>>)
      requires Valid() && activeView == Upload
      modifies this
      ensures Valid()
      ensures old(selectedFile).None? || !signedIn || generated.None? ==>
        generatedQuiz == None && activeView == Upload && quizzes == old(quizzes) &&
        selectedAnswers == old(selectedAnswers)
      ensures old(selectedFile).Some? && signedIn && generated.Some? ==>
        generatedQuiz == generated && activeView == Preview &&
        selectedAnswers == NoAnswers(|generated.value|) &&
        quizzes == [Quiz("Quiz: " + old(selectedFile).value.name, "General", generated)] + old(quizzes)
      ensures currentQuestionIndex == old(currentQuestionIndex) && showResults == old(showResults)
      ensures quizStarted == old(quizStarted) && uploadedFiles == old(uploadedFiles)
      ensures selectedFile == old(selectedFile)
    {
      if selectedFile.None? || !signedIn || generated.None? {
        return;
      }
      var quiz := Quiz("Quiz: " + selectedFile.value.name, "General", generated);
      generatedQuiz := generated;
      quizzes := [quiz] + quizzes;
      selectedAnswers := NoAnswers(|generated.value|);
      activeView := Preview;
    }

    /** Either "Start Quiz" button of the preview. */
    method StartQuiz()
      requires Valid() && activeView == Preview
      modifies this`activeView, this`quizStarted
      ensures Valid() && activeView == Taking && quizStarted
    {
      activeView := Taking;
      quizStarted := true;
    }

    /** `handleAnswerSelect`: writes the current question's slot, unless results are shown. */
    method AnswerSelect(answerIndex: int)
      requires Valid() && generatedQuiz.Some? && currentQuestionIndex < |generatedQuiz.value|
      modifies this`selectedAnswers
      ensures Valid()
      ensures selectedAnswers == if old(showResults) then old(selectedAnswers)
                                 else old(selectedAnswers)[currentQuestionIndex := Some(answerIndex)]
    {
      if showResults {
        return;
      }
      selectedAnswers := selectedAnswers[currentQuestionIndex := Some(answerIndex)];
    }

    /** "Previous": `max(0, i - 1)`, never below the first question. */
    method Previous()
      requires Valid()
      modifies this`currentQuestionIndex
      ensures Valid()
      ensures currentQuestionIndex == if old(currentQuestionIndex) > 0
                                      then old(currentQuestionIndex) - 1 else 0
    {
      currentQuestionIndex := if currentQuestionIndex - 1 > 0 then currentQuestionIndex - 1 else 0;
    }

    /** "Next": `i + 1`, offered in the question view on every question but the last. */
    method Next()
      requires Valid() && InTakingView()
      requires currentQuestionIndex != |generatedQuiz.value| - 1
      modifies this`currentQuestionIndex
      ensures Valid() && InTakingView()
      ensures currentQuestionIndex == old(currentQuestionIndex) + 1
    {
      currentQuestionIndex := currentQuestionIndex + 1;
    }

    /** `handleSubmitQuiz`: shows the results, with no check that every question is answered. */
    method SubmitQuiz()
      requires Valid() && generatedQuiz.Some?
      modifies this`showResults
      ensures Valid() && showResults
    {
      showResults := true;
    }

    /** `calculateScore`: 0 without a quiz, else the count of slots holding the correct option. */
    method CalculateScore() returns (correct: nat)
      ensures generatedQuiz.None? ==> correct == 0
      ensures generatedQuiz.Some? ==> correct == CountCorrect(generatedQuiz.value, selectedAnswers)
      ensures generatedQuiz.Some? ==> correct <= |generatedQuiz.value|
    {
      if generatedQuiz.None? {
        return 0;
      }
      var questions := generatedQuiz.value;
      correct := 0;
      var i := 0;
      while i < |questions|
        invariant 0 <= i <= |questions|
        invariant correct == CountCorrect(questions[..i], selectedAnswers)
      {
        assert questions[..i + 1][..i] == questions[..i];
        if i < |selectedAnswers| && selectedAnswers[i] == Some(questions[i].correctAnswer) {
          correct := correct + 1;
        }
        i := i + 1;
      }
      assert questions[..|questions|] == questions;
    }

    /** `resetQuiz`: back to the upload view with nothing loaded. */
    method ResetQuiz()
      requires Valid()
      modifies this
      ensures Valid()
      ensures generatedQuiz == None && currentQuestionIndex == 0 && selectedAnswers == []
      ensures !showResults && !quizStarted && selectedFile == None && activeView == Upload
      ensures uploadedFiles == old(uploadedFiles) && quizzes == old(quizzes)
    {
      generatedQuiz := None;
      currentQuestionIndex := 0;
      selectedAnswers := [];
      showResults := false;
      quizStarted := false;
      selectedFile := None;
      activeView := Upload;
    }
  }
}
