/**
 * The quiz-taking state of the QuizGenerator screen
 * (src/components/QuizGenerator.tsx): the upload list, the generated quiz,
 * the current question, one answer slot per question, and the
 * started/results flags.  Each handler is a method on that state; the calls
 * to the text-generation service and the database are replaced by their
 * outcome, passed in as a parameter.
 */
module QuizGenerator {
  import opened Wrappers
  import opened Rounding
  import opened QuizModel

  /** The colour band of the results badge. */
  datatype Band = Red | Yellow | Green

  /** Ranks the bands from worst to best. */
  function BandRank(b: Band): nat
  {
    match b
    case Red => 0
    case Yellow => 1
    case Green => 2
  }

  /** Green from 70 %, yellow from 50 %, red below. */
  function ResultBand(percentage: int): (b: Band)
    ensures b == Green <==> percentage >= 70
    ensures b == Red <==> percentage < 50
  {
    if percentage >= 70 then Green
    else if percentage >= 50 then Yellow
    else Red
  }

  /**
   * More correct answers never give a worse badge, a perfect score is green
   * and a zero score is red.
   */
  lemma ResultBandMonotone(score1: int, score2: int, total: int)
    requires total >= 1 && score1 <= score2
    ensures BandRank(ResultBand(Percentage(score1, total))) <= BandRank(ResultBand(Percentage(score2, total)))
    ensures ResultBand(Percentage(total, total)) == Green
    ensures ResultBand(Percentage(0, total)) == Red
  {
    PercentageMonotone(score1, score2, total);
    PercentageEnds(total);
  }

  class QuizGeneratorScreen {
    var uploadedFiles: seq<UploadedFile>
    var selectedFile: Option<UploadedFile>
    var quizzes: seq<Quiz>                    // the app-wide quiz list
    var generatedQuiz: Option<seq<Question>>  // the questions of the generated quiz
    var currentQuestionIndex: int
    var selectedAnswers: seq<Option<int>>
    var showResults: bool
    var quizStarted: bool

    /** The state the handlers keep: one answer slot per question, the index on a question. */
    ghost predicate Valid()
      reads this
    {
      currentQuestionIndex >= 0 &&
      (generatedQuiz.None? ==>
        currentQuestionIndex == 0 && selectedAnswers == [] && !showResults && !quizStarted) &&
      (generatedQuiz.Some? ==>
        |selectedAnswers| == |generatedQuiz.value| &&
        (currentQuestionIndex == 0 || currentQuestionIndex < |generatedQuiz.value|))
    }

    constructor (quizzes: seq<Quiz>)
      ensures Valid()
      ensures uploadedFiles == [] && selectedFile == None && this.quizzes == quizzes
      ensures generatedQuiz == None && currentQuestionIndex == 0 && selectedAnswers == []
      ensures !showResults && !quizStarted
    {
      uploadedFiles, selectedFile, this.quizzes := [], None, quizzes;
      generatedQuiz, currentQuestionIndex, selectedAnswers := None, 0, [];
      showResults, quizStarted := false, false;
    }

    /** Clicking a file in the upload list selects it only once it is ready. */
    method SelectFile(item: UploadedFile)
      requires Valid() && item in uploadedFiles
      modifies this`selectedFile
      ensures Valid()
      ensures selectedFile == (if item.status == Ready then Some(item) else old(selectedFile))
    {
      if item.status == Ready {
        selectedFile := Some(item);
      }
    }

    /** `handleRemoveFile`: drops every entry for the file and clears the selection if it was that file. */
    method RemoveFile(file: nat)
      requires Valid()
      modifies this`uploadedFiles, this`selectedFile
      ensures Valid()
      ensures uploadedFiles == WithoutFile(old(uploadedFiles), file)
      ensures selectedFile == (if old(selectedFile).Some? && old(selectedFile).value.file == file
                               then None else old(selectedFile))
    {
      uploadedFiles := WithoutFile(uploadedFiles, file);
      if selectedFile.Some? && selectedFile.value.file == file {
        selectedFile := None;
      }
    }

    /**
     * `handleGenerateQuiz`, offered only while no quiz is loaded.  `generated`
     * is the outcome of generating and saving the quiz: None when either failed.
     */
    method GenerateQuiz(signedIn: bool, generated: Option<seq<Question>>, subject: string)
      requires Valid() && generatedQuiz.None?
      modifies this
      ensures Valid()
      ensures old(selectedFile).None? || !signedIn || generated.None? ==>
        generatedQuiz == None && quizzes == old(quizzes) && selectedAnswers == old(selectedAnswers)
      ensures old(selectedFile).Some? && signedIn && generated.Some? ==>
        generatedQuiz == generated &&
        selectedAnswers == NoAnswers(|generated.value|) &&
        quizzes == [Quiz("Quiz: " + old(selectedFile).value.name,
                         if subject == "" then "General" else subject,
                         generated)] + old(quizzes)
      ensures currentQuestionIndex == old(currentQuestionIndex) && showResults == old(showResults)
      ensures quizStarted == old(quizStarted) && uploadedFiles == old(uploadedFiles)
      ensures selectedFile == old(selectedFile)
    {
      if selectedFile.None? || !signedIn || generated.None? {
        return;
      }
      var questions := generated.value;
      var quiz := Quiz("Quiz: " + selectedFile.value.name,
                       if subject == "" then "General" else subject,
                       generated);
      generatedQuiz := generated;
      quizzes := [quiz] + quizzes;
      selectedAnswers := NoAnswers(|questions|);
    }

    /** The "Start Quiz" button of the ready view. */
    method StartQuiz()
      requires Valid() && generatedQuiz.Some?
      modifies this`quizStarted
      ensures Valid() && quizStarted
    {
      quizStarted := true;
    }

    /** `handleAnswerSelect`: writes the current question's slot, unless results are shown. */
    method AnswerSelect(answerIndex: int)
      requires Valid() && generatedQuiz.Some? && currentQuestionIndex < |generatedQuiz.value|
      modifies this`selectedAnswers
      ensures Valid()
      ensures selectedAnswers == if old(showResults) then old(selectedAnswers)
                                 else old(selectedAnswers)[currentQuestionIndex := Some(answerIndex)]
    {
      if showResults {
        return;
      }
      selectedAnswers := selectedAnswers[currentQuestionIndex := Some(answerIndex)];
    }

    /** `handleNextQuestion`: moves on only while a later question exists. */
    method NextQuestion()
      requires Valid()
      modifies this`currentQuestionIndex
      ensures Valid()
      ensures var count := if generatedQuiz.Some? then |generatedQuiz.value| else 0;
        currentQuestionIndex == if old(currentQuestionIndex) < count - 1
                                then old(currentQuestionIndex) + 1 else old(currentQuestionIndex)
    {
      var count := if generatedQuiz.Some? then |generatedQuiz.value| else 0;
      if currentQuestionIndex < count - 1 {
        currentQuestionIndex := currentQuestionIndex + 1;
      }
    }

    /** `handlePrevQuestion`: moves back only from a question after the first. */
    method PrevQuestion()
      requires Valid()
      modifies this`currentQuestionIndex
      ensures Valid()
      ensures currentQuestionIndex == if old(currentQuestionIndex) > 0
                                      then old(currentQuestionIndex) - 1 else old(currentQuestionIndex)
    {
      if currentQuestionIndex > 0 {
        currentQuestionIndex := currentQuestionIndex - 1;
      }
    }

    /** The "Submit Quiz" button: shown on the last question, disabled while any answer is null. */
    predicate SubmitEnabled()
      reads this
      ensures SubmitEnabled() ==>
        generatedQuiz.Some? &&
        (Valid() ==> forall i :: 0 <= i < |generatedQuiz.value| ==> selectedAnswers[i].Some?)
    {
      generatedQuiz.Some? && quizStarted && !showResults &&
      currentQuestionIndex == |generatedQuiz.value| - 1 &&
      AllAnswered(selectedAnswers)
    }

    /** Pressing "Submit Quiz": results are shown only when the button is enabled. */
    method PressSubmit()
      requires Valid()
      modifies this`showResults
      ensures Valid()
      ensures showResults == (old(showResults) || old(SubmitEnabled()))
    {
      if SubmitEnabled() {
        showResults := true;
      }
    }

    /** `calculateScore`: 0 without a quiz, else the count of slots holding the correct option. */
    method CalculateScore() returns (correct: nat)
      ensures generatedQuiz.None? ==> correct == 0
      ensures generatedQuiz.Some? ==> correct == CountCorrect(generatedQuiz.value, selectedAnswers)
      ensures generatedQuiz.Some? ==> correct <= |generatedQuiz.value|
    {
      if generatedQuiz.None? {
        return 0;
      }
      var questions := generatedQuiz.value;
      correct := 0;
      for i := 0 to |questions|
        invariant correct == CountCorrect(questions[..i], selectedAnswers)
      {
        assert questions[..i + 1][..i] == questions[..i];
        if i < |selectedAnswers| && selectedAnswers[i] == Some(questions[i].correctAnswer) {
          correct := correct + 1;
        }
      }
      assert questions[..|questions|] == questions;
    }

    /** `resetQuiz`: back to an empty generation view. */
    method ResetQuiz()
      requires Valid()
      modifies this
      ensures Valid()
      ensures generatedQuiz == None && currentQuestionIndex == 0 && selectedAnswers == []
      ensures !showResults && !quizStarted && selectedFile == None
      ensures uploadedFiles == old(uploadedFiles) && quizzes == old(quizzes)
    {
      generatedQuiz := None;
      currentQuestionIndex := 0;
      selectedAnswers := [];
      showResults := false;
      quizStarted := false;
      selectedFile := None;
    }
  }
}
