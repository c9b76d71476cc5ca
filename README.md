# StudyBuddy core, modelled in Dafny

StudyBuddy is a study-assistant web app. A student uploads study material, has an AI model turn it into a multiple-choice quiz, takes the quiz, and then sees their learning progress. That progress covers:

- a running average score;
- a day streak;
- the total study time;
- a score chart;
- topic mastery;
- achievements.

There is also a revision screen with a flashcard carousel. This project models the logic behind those features:

- **`Rounding`** (`rounding.dfy`): JavaScript's `Math.round(p / q)`, computed on exact rationals, plus the percentage `Math.round(score / total * 100)` that every screen shows.
- **`Progress`** (`progress.dfy`): the learning-progress record and the rule that ingests one finished quiz attempt. The rule updates the quiz count, the running average (rounded), the streak (from whole 24-hour periods since the last study time), the last-study time and the study minutes.
- **`ProgressStore`** (`progress_store.dfy`): the per-user record store.
  - Reading creates a zeroed record for a user who has none.
  - The update after a quiz reads the record, ingests the attempt and writes the record back.
  - Store failures are explicit flags. A failed read changes nothing, and a failed write leaves the record as it was read.
- **`QuizModel`** (`quiz.dfy`): questions, quizzes and uploaded files; counting correct answers, and removing an uploaded file.
- **`QuizGenerator`** (`quiz_generator.dfy`): the quiz-generator screen's state (uploaded files, generated quiz, current question, selected answers, the started and results flags). It has every handler and the green/yellow/red result band.
- **`Quizzes`** (`quizzes.dfy`): the quizzes screen. It has the same state plus the upload → preview → taking view, its handlers, the green/orange result colour, and the "total questions" figure summed over the saved quizzes.
- **`LearningPath`** (`learning_path.dfy`): the learning-path dashboard's derived data:
  - headline stats with their zero fallbacks;
  - the last-ten score chart, oldest first;
  - the five-topic mastery chart with shortened names and cycling colours;
  - the six achievements;
  - the request for AI topic recommendations.
- **`RevisionMode`** (`revision_mode.dfy`): the wrapping flashcard carousel, the flip flag, the card counter and the weak-topic dot colour.
- **`ResponseParsing`** (`response_parsing.dfy`): what the AI service layer does with model text. It covers:
  - extracting the greedy `[ … ]` JSON span;
  - the quiz call's error mapping;
  - the list calls' empty-list fallback;
  - the summary word targets;
  - how a chat prompt is assembled.

Units are as in the source. Times are integer milliseconds since the epoch, `timeSpent` is seconds, study time is minutes, and scores are percentages 0–100. The wall clock is a parameter (`now`).

## Model

| member | source | states |
|---|---|---|
| Rounding.RoundDiv | src/services/firebaseService.ts:392 | the result is the integer nearest to p/q, with halves rounded up (`Math.round`) |
| Rounding.Percentage | src/components/QuizGenerator.tsx:190 | the shown percentage of a score that is between 0 and the total lies in 0..100 |
| Rounding.RoundQuotientBounds | src/components/QuizGenerator.tsx:190 | a rounded quotient p/q with 0 ≤ p ≤ hi·q lies in 0..hi |
| Rounding.RoundDivMonotone | src/services/firebaseService.ts:392 | rounding preserves the order of the exact quotients |
| Rounding.RoundDivOfMultiple | src/components/QuizGenerator.tsx:190 | an exact multiple rounds to itself |
| Rounding.PercentageMonotone | src/components/QuizGenerator.tsx:190 | a higher score never shows a lower percentage |
| Rounding.PercentageEnds | src/components/QuizGenerator.tsx:190 | a full score shows 100 and no correct answer shows 0 |
| Progress.InitialProgress | src/services/firebaseService.ts:315-325 | the record created for a new user is valid and zeroed, has empty topic lists, and is stamped with its creation time |
| Progress.DaysSince | src/services/firebaseService.ts:375-377 | the day difference is the number of whole 24-hour periods between the last study time and now (floor) |
| Progress.NextStreak | src/services/firebaseService.ts:379-388 | the new streak is the old one, one more, or 1; a non-negative streak stays non-negative, and is at least 1 once a new period has begun |
| Progress.MinutesOf | src/services/firebaseService.ts:395 | the added minutes are the nearest whole minute to the seconds spent (half a minute rounds up), never negative for a non-negative duration |
| Progress.AverageAfter | src/services/firebaseService.ts:366-372 | the new average is the integer nearest to (old average · quizzes taken + this attempt's percentage) / (quizzes taken + 1) |
| Progress.IngestAttempt | src/services/firebaseService.ts:361-400 | one attempt raises the quiz count by exactly one, sets the last-study time to now, adds the rounded minutes, and leaves user, topics and weak/strong lists unchanged |
| Progress.IngestNotIdempotent | src/services/firebaseService.ts:390-396 | ingesting the same attempt twice counts it twice, because nothing deduplicates attempts |
| Progress.AverageStaysInRange | src/services/firebaseService.ts:366-372 | if the old average is in 0..100 and the score is within the question count, the new average is in 0..100 |
| Progress.IngestPreservesValid | src/services/firebaseService.ts:361-400 | ingesting a well-formed attempt keeps a valid record valid |
| Progress.StreakLaw | src/services/firebaseService.ts:374-388 | within 24h of the last study the streak is kept; 24h to under 48h adds one; otherwise (48h or more, or a clock behind the last study time) it becomes 1 |
| Progress.FreshRecordKeepsZeroStreak | src/services/firebaseService.ts:315-388 | an attempt ingested within 24h of creating the record leaves the streak at 0 |
| Progress.StudyTimeNonDecreasing | src/services/firebaseService.ts:395 | total study time never decreases |
| Progress.IngestAll | src/services/firebaseService.ts:361-400 | n attempts ingested in order raise the count by n, leave the last-study time at the last attempt's time, and keep user and topic lists; none leaves the record as it was |
| Progress.IngestAllPreservesValid | src/services/firebaseService.ts:361-400 | a run of well-formed attempts keeps a valid record valid |
| Progress.ThreeAttemptScenario | src/services/firebaseService.ts:366-396 | from a zeroed record: 8/10 a day later gives count 1, average 80, streak 1 and 10 minutes; 5/10 an hour after that gives count 2, average 65, streak still 1 and 15 minutes; a third attempt 48h later resets the streak to 1 with count 3 |
| Progress.TwoCalendarDaysWithin48Hours | src/services/firebaseService.ts:375-377 | two calendar days apart but under 48h counts as the next period, so the streak grows |
| ProgressStore.ProgressStore.RecordFor | src/services/firebaseService.ts:299-325 | the record a read returns for a user (the stored one, or a zeroed one stamped now) is valid and belongs to that user |
| ProgressStore.ProgressStore.GetLearningProgress | src/services/firebaseService.ts:299-337 | an unavailable store returns nothing and changes nothing; otherwise it returns the user's record and stores the created one if there was none |
| ProgressStore.ProgressStore.UpdateLearningProgressAfterQuiz | src/services/firebaseService.ts:361-400 | a failed read changes nothing; a failed write stores the read (possibly created) record; otherwise the stored record becomes the ingested one, and every other user's record is unchanged |
| QuizModel.NoAnswers | src/components/QuizGenerator.tsx:125 | a new quiz starts with one empty answer slot per question |
| QuizModel.Matches | src/components/QuizGenerator.tsx:170-172 | question i scores when an answer is stored for it and equals its correct option (a missing or null answer never scores) |
| QuizModel.CountCorrect | src/components/QuizGenerator.tsx:166-175 | the score never exceeds the number of questions |
| QuizModel.FullScoreIffAllCorrect | src/components/QuizGenerator.tsx:166-175 | the score equals the question count exactly when every question's selected answer is its correct one |
| QuizModel.UnansweredScoresZero | src/components/Quizzes.tsx:163-172 | with every slot empty the score is 0 |
| QuizModel.SelectChangesOneSlot | src/components/QuizGenerator.tsx:140-148 | choosing an answer for question k changes the score exactly by the loss of k's old point, if it had one, and the gain of the new one, if correct |
| QuizModel.UnchangedBelow | src/components/QuizGenerator.tsx:166-175 | the score over a prefix depends only on the answers in that prefix |
| QuizModel.AllAnswered | src/components/QuizGenerator.tsx:313 | no answer slot is still null |
| QuizModel.WithoutFile | src/components/QuizGenerator.tsx:133-138 | removing a file keeps exactly the entries whose file differs, and never grows the list |
| QuizModel.WithoutFileAppend | src/components/QuizGenerator.tsx:134 | the filter works entry by entry: on a joined list it is the join of the filtered parts, so order and repetitions are kept |
| QuizModel.WithoutFileSingle | src/components/QuizGenerator.tsx:134 | a single entry is kept exactly when it is not the removed file |
| QuizModel.WithoutAbsentFile | src/components/Quizzes.tsx:142-147 | removing a file that is not in the list leaves the list unchanged |
| QuizGenerator.ResultBand | src/components/QuizGenerator.tsx:196-201 | the band is green exactly from 70 % and red exactly below 50 % (yellow in between) |
| QuizGenerator.ResultBandMonotone | src/components/QuizGenerator.tsx:190-200 | a higher score never gets a worse band; a full score is green and zero is red |
| QuizGenerator.QuizGeneratorScreen.constructor | src/components/QuizGenerator.tsx:26-38 | the screen opens with no files, no quiz, question 0, no answers and both flags off |
| QuizGenerator.QuizGeneratorScreen.SelectFile | src/components/QuizGenerator.tsx:420 | clicking a listed file selects it only when its status is ready (otherwise the selection stays); no other field may change |
| QuizGenerator.QuizGeneratorScreen.RemoveFile | src/components/QuizGenerator.tsx:133-138 | the file leaves the list, and the selection is cleared exactly when it was that file; no other field may change |
| QuizGenerator.QuizGeneratorScreen.GenerateQuiz | src/components/QuizGenerator.tsx:96-131 | with no selected file, no user or a failed generation nothing changes; otherwise the quiz is loaded with one empty slot per question and prepended to the saved quizzes, titled "Quiz: " + file name, with subject "General" when none is given; index, flags, files and selection are untouched |
| QuizGenerator.QuizGeneratorScreen.StartQuiz | src/components/QuizGenerator.tsx:368 | starting sets the started flag only |
| QuizGenerator.QuizGeneratorScreen.AnswerSelect | src/components/QuizGenerator.tsx:140-148 | before results are shown, only the current question's slot changes to the chosen option; afterwards nothing changes |
| QuizGenerator.QuizGeneratorScreen.NextQuestion | src/components/QuizGenerator.tsx:150-154 | the index moves forward by one unless it is on the last question |
| QuizGenerator.QuizGeneratorScreen.PrevQuestion | src/components/QuizGenerator.tsx:156-160 | the index moves back by one unless it is on the first question |
| QuizGenerator.QuizGeneratorScreen.SubmitEnabled | src/components/QuizGenerator.tsx:310-317 | the submit button is live on the last question of a started quiz without results, and then every question has an answer |
| QuizGenerator.QuizGeneratorScreen.PressSubmit | src/components/QuizGenerator.tsx:310-317 | results are shown exactly when they were already shown or the submit button was enabled (last question, every question answered) |
| QuizGenerator.QuizGeneratorScreen.CalculateScore | src/components/QuizGenerator.tsx:166-175 | returns the number of questions whose selected answer is correct |
| QuizGenerator.QuizGeneratorScreen.ResetQuiz | src/components/QuizGenerator.tsx:177-184 | unloads the quiz, clears the selected file and the answers (to an empty list), returns to question 0 and turns both flags off; the upload list and saved quizzes stay |
| Quizzes.RatioTestAgainstPercentage | src/components/Quizzes.tsx:221-227 | a ratio of at least 0.7 shows at least 70 %, and a lower ratio at most 70 % |
| Quizzes.ResultColour | src/components/Quizzes.tsx:221-227 | as written: green only when the shown percentage is at least 70, and always green from 71 %, so it departs from the shown percentage only at 70 % |
| Quizzes.ResultColourCorrected | src/components/Quizzes.tsx:221-227 | the badge is green exactly when the shown percentage is at least 70 |
| Quizzes.ColourDisagreesWithShownPercentage | src/components/Quizzes.tsx:221-227 | 16 of 23 shows "70%" on an orange badge |
| Quizzes.QuestionCount | src/components/Quizzes.tsx:593 | a quiz counts its questions, or 0 without a question list |
| Quizzes.TotalQuestions | src/components/Quizzes.tsx:593 | the total is at least each saved quiz's question count, and is 0 when no saved quiz has questions |
| Quizzes.TotalQuestionsAppend | src/components/Quizzes.tsx:593 | the total question count over two lists of quizzes is the sum of their totals |
| Quizzes.TotalAfterGenerate | src/components/Quizzes.tsx:131-132 | saving a generated quiz raises the total question count by its number of questions |
| Quizzes.QuizzesScreen.constructor | src/components/Quizzes.tsx:34-47 | the screen opens in the upload view with no files, no quiz, question 0, no answers and both flags off |
| Quizzes.QuizzesScreen.SelectFile | src/components/Quizzes.tsx:378 | clicking a listed file selects it only when its status is ready (otherwise the selection stays); no other field may change |
| Quizzes.QuizzesScreen.RemoveFile | src/components/Quizzes.tsx:142-147 | the file leaves the list, and the selection is cleared exactly when it was that file |
| Quizzes.QuizzesScreen.GenerateQuiz | src/components/Quizzes.tsx:105-140 | with no selected file, no user or a failed generation nothing changes; otherwise the quiz is loaded and prepended to the saved quizzes (titled "Quiz: " + file name; the subject is always "General", since this screen never sets one), the answers become empty slots and the view moves to preview |
| Quizzes.QuizzesScreen.StartQuiz | src/components/Quizzes.tsx:543-548 | starting from the preview moves to the taking view and sets the started flag |
| Quizzes.QuizzesScreen.AnswerSelect | src/components/Quizzes.tsx:149-157 | before results are shown, only the current question's slot changes; afterwards nothing changes |
| Quizzes.QuizzesScreen.Previous | src/components/Quizzes.tsx:318 | the index becomes max(0, index − 1) |
| Quizzes.QuizzesScreen.Next | src/components/Quizzes.tsx:324-337 | in the taking view, before the last question, the index moves forward by one |
| Quizzes.QuizzesScreen.SubmitQuiz | src/components/Quizzes.tsx:159-161 | submitting shows the results and changes nothing else, even with unanswered questions |
| Quizzes.QuizzesScreen.CalculateScore | src/components/Quizzes.tsx:163-172 | returns the number of questions whose selected answer is correct |
| Quizzes.QuizzesScreen.ResetQuiz | src/components/Quizzes.tsx:174-182 | returns to the upload view with question 0, empty slots and both flags off |
| LearningPath.StatsOf | src/components/LearningPath.tsx:80-85 | each headline figure is the record's value, or 0 when there is no record |
| LearningPath.Reverse | src/components/LearningPath.tsx:88 | the reversal has the same length, with element k being element n−1−k of the input |
| LearningPath.RecentOldestFirst | src/components/LearningPath.tsx:88 | the chart takes min(10, n) attempts, element k being the (min(10, n)−1−k)-th of the history |
| LearningPath.RecentOldestFirstChronological | src/components/LearningPath.tsx:88 | the chart shows at most the ten newest attempts, oldest first |
| LearningPath.ScorePoints | src/components/LearningPath.tsx:88-91 | point k is labelled quiz first+k and carries attempt k's percentage |
| LearningPath.ScoreHistory | src/components/LearningPath.tsx:88-91 | there are min(10, n) points; point k is quiz k+1 and shows the percentage of the k-th oldest of the ten newest attempts |
| LearningPath.ShortName | src/components/LearningPath.tsx:94 | names of at most 15 characters are kept; longer names become their first 15 characters followed by "..." |
| LearningPath.TopicSlices | src/components/LearningPath.tsx:93-96 | one slice per topic, in order, with its shortened name and mastery level |
| LearningPath.TopicDistribution | src/components/LearningPath.tsx:93-96 | no record gives no slices; otherwise the first min(5, n) topics, each with its shortened name and mastery level |
| LearningPath.CellColour | src/components/LearningPath.tsx:257 | every slice colour is one of the five palette entries |
| LearningPath.CellColours | src/components/LearningPath.tsx:256-258 | slice colours repeat every five slices, and the first five all differ |
| LearningPath.ReachesNinetyPercent | src/components/LearningPath.tsx:105 | `score / totalQuestions >= 0.9` on JavaScript numbers, including Infinity and NaN for a zero total and a negative total |
| LearningPath.AchievementsOf | src/components/LearningPath.tsx:100-107 | the six badges; Quiz Master implies First Steps and Week Warrior implies Streak Starter |
| LearningPath.AchievementsMonotone | src/components/LearningPath.tsx:100-107 | with non-decreasing stats and a history that keeps its attempts, no unlocked achievement is locked again (the history the screen loads can drop old attempts; see Left out) |
| LearningPath.TopicNames | src/components/LearningPath.tsx:68 | one name per topic, in order |
| LearningPath.RecommendationRequestFor | src/components/LearningPath.tsx:64-69 | recommendations are requested exactly when a record with at least one topic exists; the request carries all topic names, the weak topics and the first min(5, n) topic names |
| RevisionMode.NextIndex | src/components/RevisionMode.tsx:82 | the next card index stays in the deck: one more, or 0 after the last card |
| RevisionMode.PrevIndex | src/components/RevisionMode.tsx:89 | the previous card index stays in the deck: one less, or the last card before the first |
| RevisionMode.Advance | src/components/RevisionMode.tsx:79-84 | after at least one press of next the index is inside the deck; no press leaves it as it was |
| RevisionMode.NextPrevInverse | src/components/RevisionMode.tsx:79-91 | next and previous stay inside the deck and undo each other |
| RevisionMode.AdvanceIsModular | src/components/RevisionMode.tsx:79-84 | k presses of next from card i land on card (i + k) mod n |
| RevisionMode.FullCycle | src/components/RevisionMode.tsx:79-84 | n presses of next return to the starting card |
| RevisionMode.ModSucc | src/components/RevisionMode.tsx:82 | ((x mod n) + 1) mod n equals (x + 1) mod n |
| RevisionMode.ModUnique | src/components/RevisionMode.tsx:82 | a quotient and remainder in 0..n−1 are the unique ones |
| RevisionMode.DotColour | src/components/RevisionMode.tsx:138 | the dot is red exactly below 50 and yellow exactly from 60 (orange in between) |
| RevisionMode.DotColourMonotone | src/components/RevisionMode.tsx:138 | a higher weak-topic score never gets a more alarming dot |
| RevisionMode.FlashcardCarousel.constructor | src/components/RevisionMode.tsx:29-30 | the carousel opens on the first card, showing its front |
| RevisionMode.FlashcardCarousel.NextCard | src/components/RevisionMode.tsx:79-84 | shows the front of the next card, wrapping from the last card to the first |
| RevisionMode.FlashcardCarousel.PrevCard | src/components/RevisionMode.tsx:86-91 | shows the front of the previous card, wrapping from the first card to the last |
| RevisionMode.FlashcardCarousel.Flip | src/components/RevisionMode.tsx:182 | toggles between front and back on the same card |
| RevisionMode.FlashcardCarousel.CurrentCard | src/components/RevisionMode.tsx:93 | the card shown is always one of the deck's cards |
| RevisionMode.FlashcardCarousel.CardsReviewed | src/components/RevisionMode.tsx:294 | the counter lies between 1 and the deck size |
| ResponseParsing.FirstOpen | src/services/geminiService.ts:100 | the first '[' of the text, if any, with none before it |
| ResponseParsing.LastClose | src/services/geminiService.ts:100 | the last ']' of the text, if any, with none after it |
| ResponseParsing.ArraySpan | src/services/geminiService.ts:100 | a span is found exactly when some '[' precedes some ']'; it runs from the first '[' to the last ']' |
| ResponseParsing.ExtractArray | src/services/geminiService.ts:100 | the extracted text starts with '[', ends with ']' and is the span from the first '[' to the last ']'; none exactly when no '[' precedes a ']' |
| ResponseParsing.ExtractIdempotent | src/services/geminiService.ts:100 | extracting from an extracted span gives the span itself |
| ResponseParsing.QuizPayload | src/services/geminiService.ts:100-110 | text without a bracketed span fails with "Failed to generate quiz. Please try again."; otherwise the span is passed on to parsing |
| ResponseParsing.ListPayload | src/services/geminiService.ts:134-139 | text without a bracketed span yields the empty list; otherwise the span is passed on to parsing |
| ResponseParsing.WordTarget | src/services/geminiService.ts:199-201 | short, medium and long summaries aim at 100, 250 and 500 words, and a missing length means medium |
| ResponseParsing.WordTargetOrdered | src/services/geminiService.ts:199-201 | the word targets grow strictly from short to long |
| ResponseParsing.ChatPrompt | src/services/geminiService.ts:44-46 | the prompt always ends with the message; without history it is prefixed by the system prompt, and with history it is the message alone |

## Left out

- Firebase I/O (Firestore reads and writes, authentication, `Timestamp` conversion) is modelled as a map held in the store, with explicit success flags for each read and write. Exceptions, retries and logging are not modelled.
- The store's read-then-write update is not atomic in the source. Concurrent updates of the same user (two tabs) can lose an attempt. The model runs one update at a time.
- The two clock reads in one update (record creation and "today") are modelled as a single instant `now`.
- `getLearningProgress` falls back to "now" for a stored record whose `lastStudyDate` is missing, and to an empty topic list when `topics` is missing. The model's stored records always carry both fields.
- JavaScript numbers are IEEE doubles. The model computes ratios and rounding on exact rationals, so it does not capture representation errors in `score / total * 100` near a .5 boundary.
- Progress.IngestAttempt requires at least one question. In the source, a zero-question attempt would produce a NaN average, and the source has no guard against it.
- LearningPath.ScoreHistory requires at least one question for each of the charted attempts, for the same reason (the source would chart NaN).
- The score chart's "Quiz k" label is modelled as the number k.
- LearningPath.ShortName: lengths are counted in Unicode code points, where JavaScript's `length` and `substring` count UTF-16 code units. A name with characters outside the Basic Multilingual Plane (emoji, say) is cut at a different place, or kept whole, in the model. This also applies to `TopicSlices` and `TopicDistribution`.
- LearningPath.AchievementsMonotone: the history the screen loads is the 50 newest attempts (`getQuizAttempts`, src/services/firebaseService.ts:279-282). An old 90 % attempt can therefore fall out of it, and High Achiever can lock again. The lemma only covers histories that keep their attempts; loading the history is not modelled.
- ProgressStore.ProgressStore.UpdateLearningProgressAfterQuiz: requires a well-formed attempt, meaning at least one question, a score between 0 and the question count, and a non-negative time spent. The source checks none of these. With a score above the total it would store an average above 100, and with a negative time spent it would lower the study minutes. No caller in the source passes such an attempt.
- The AI calls themselves are not part of this model. This covers prompt wording, model configuration, network failures and `JSON.parse` of the extracted span: the model stops at the extracted text (`QuizPayload`, `ListPayload`). `explainConcept` and `summarizeContent` only forward the model's text.
- The 150 ms `setTimeout` before each card change, and the animation, are left out. Card changes are immediate.
- The revision screen's deck and weak-topic list are hard-coded samples in the source. The model takes any non-empty deck as a parameter.
- File upload through the dropzone and `FileReader` (the pending → processing → ready/error status updates, and reading content) is not modelled. Files enter the model as already-listed `UploadedFile` values.
- Quiz settings inputs (question count, difficulty, subject fields) are not modelled; they only shape the prompt. The quiz-generator screen's subject field is a parameter of its `GenerateQuiz`. The quizzes screen has no subject field, so its `GenerateQuiz` always saves "General".
- The quiz screens' busy flag (`isGenerating`) and the rendering are not modelled. The views a handler can be reached from are stated as its preconditions.
- The topic aggregator, the analytics charts and the daily goals are not part of this model. Analytics.tsx, Dashboard.tsx, AskDoubt.tsx, StudyBuddyChat.tsx, LandingPage.tsx, Sidebar.tsx, App.tsx and AppContext.tsx are not part of this model, apart from the fact that a user may be signed out (`signedIn`).
- Streak: the source counts whole 24-hour periods between the stored last-study time and the wall clock. It does not count calendar days of `completedAt`. The model follows the code: two calendar days apart but under 48 hours extends the streak (`Progress.TwoCalendarDaysWithin48Hours`).
- Average: the source does not round the attempt's percentage before averaging; it rounds only the new average, and the model follows the code. The source also has no validation step rejecting a zero-question attempt; the model makes that a precondition, as above.

## Findings

| source | as written | input that shows it | evidently intended | confidence | as-written member | corrected member |
|---|---|---|---|---|---|---|
| src/components/Quizzes.tsx:221-227 | the result badge is green when the unrounded ratio score/total is at least 0.7, but the label shows the rounded percentage | 16 correct of 23: the label reads "70%" while the badge is orange (16/23 ≈ 0.696) | the colour follows the percentage the student sees, as the quiz-generator screen does (green from 70%) | medium; not executed | Quizzes.ColourDisagreesWithShownPercentage | Quizzes.ResultColourCorrected |
