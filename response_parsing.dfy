/**
 * What src/services/geminiService.ts does with the text of a generated
 * response before `JSON.parse`: it takes the match of `/\[[\s\S]*\]/`, the
 * slice from the first '[' to the last ']' after it, and each caller decides
 * what a missing match means.  Also the summary length table and the
 * choice of chat prompt.  The generation calls themselves are not modelled.
 */
module ResponseParsing {
  import opened Wrappers

  /** Position of the first '['. */
  function FirstOpen(s: string): (r: Option<nat>)
    ensures r.Some? ==> r.value < |s| && s[r.value] == '[' && forall k :: 0 <= k < r.value ==> s[k] != '['
    ensures r.None? ==> forall k :: 0 <= k < |s| ==> s[k] != '['
    decreases |s|
  {
    if s == [] then None
    else if s[0] == '[' then Some(0)
    else match FirstOpen(s[1..])
      case None => None
      case Some(i) => Some(i + 1)
  }

  /** Position of the last ']'. */
  function LastClose(s: string): (r: Option<nat>)
    ensures r.Some? ==> r.value < |s| && s[r.value] == ']' && forall k :: r.value < k < |s| ==> s[k] != ']'
    ensures r.None? ==> forall k :: 0 <= k < |s| ==> s[k] != ']'
    decreases |s|
  {
    if s == [] then None
    else if s[|s| - 1] == ']' then Some(|s| - 1)
    else LastClose(s[..|s| - 1])
  }

  /**
   * The first and last positions of the match: the leftmost '[' and, greedily,
   * the rightmost ']' after it.  There is no match exactly when no '[' has a
   * ']' somewhere after it.
   */
  function ArraySpan(s: string): (r: Option<(nat, nat)>)
    ensures r.Some? ==>
      var (i, j) := r.value;
      i < j < |s| && s[i] == '[' && s[j] == ']' &&
      (forall k :: 0 <= k < i ==> s[k] != '[') &&
      (forall k :: j < k < |s| ==> s[k] != ']')
    ensures r.None? <==> forall k, l :: 0 <= k < l < |s| ==> !(s[k] == '[' && s[l] == ']')
  {
    match FirstOpen(s)
    case None => None
    case Some(i) =>
      match LastClose(s)
      case None => None
      case Some(j) => if i < j then Some((i, j)) else None
  }

  /** The matched text, from the first '[' through the last ']'. */
  function ExtractArray(s: string): (r: Option<string>)
    ensures r.Some? <==> ArraySpan(s).Some?
    ensures r.Some? ==>
      |r.value| >= 2 && r.value[0] == '[' && r.value[|r.value| - 1] == ']' &&
      ArraySpan(s).value.0 + |r.value| == ArraySpan(s).value.1 + 1 &&
      r.value == s[ArraySpan(s).value.0 .. ArraySpan(s).value.1 + 1]
  {
    match ArraySpan(s)
    case None => None
    case Some((i, j)) => Some(s[i..j + 1])
  }

  /** Extracting again from an extracted slice gives the same slice. */
  lemma ExtractIdempotent(s: string)
    requires ExtractArray(s).Some?
    ensures ExtractArray(ExtractArray(s).value) == ExtractArray(s)
  {
    var t := ExtractArray(s).value;
    assert FirstOpen(t) == Some(0);
    assert LastClose(t) == Some(|t| - 1);
    assert t[0..|t|] == t;
  }

  /** The error `generateQuizFromContent` throws for a response it cannot use. */
  const QuizGenerationFailed: string := "Failed to generate quiz. Please try again."

  /**
   * `generateQuizFromContent`: the slice handed to the JSON parser, or the
   * error it throws when there is none (its own "Invalid response format"
   * error is caught and rethrown as this one).
   */
  function QuizPayload(text: string): (r: Result<string, string>)
    ensures r.Failure? <==> ExtractArray(text).None?
    ensures r.Failure? ==> r.error == QuizGenerationFailed
    ensures r.Success? ==> r.value == ExtractArray(text).value
  {
    match ExtractArray(text)
    case None => Failure(QuizGenerationFailed)
    case Some(slice) => Success(slice)
  }

  /** What a list-returning call does with a response: parse the slice, or answer []. */
  datatype ListReply = ParseSlice(json: string) | EmptyList

  /**
   * `extractKeyConcepts`, `generateStudyRecommendations` and
   * `generateFlashcards`: an empty list when there is no match.
   */
  function ListPayload(text: string): (r: ListReply)
    ensures r.EmptyList? <==> ExtractArray(text).None?
    ensures r.ParseSlice? ==> r.json == ExtractArray(text).value
  {
    match ExtractArray(text)
    case None => EmptyList
    case Some(slice) => ParseSlice(slice)
  }

  /** The three summary lengths; an omitted length means medium. */
  datatype SummaryLength = Short | Medium | Long

  /** The word count a summary asks for. */
  function WordTarget(length: Option<SummaryLength>): (words: nat)
    ensures length.None? ==> words == 250
    ensures words == 100 || words == 250 || words == 500
  {
    match if length.Some? then length.value else Medium
    case Short => 100
    case Medium => 250
    case Long => 500
  }

  /** Longer summaries ask for strictly more words, and the default is the medium one. */
  lemma WordTargetOrdered()
    ensures WordTarget(Some(Short)) < WordTarget(Some(Medium)) < WordTarget(Some(Long))
    ensures WordTarget(None) == WordTarget(Some(Medium))
  {
  }

  /** One turn of a chat history. */
  datatype ChatTurn = ChatTurn(role: string, text: string)

  /**
   * `chatWithStudyBuddy`'s prompt: the system prompt is put in front of the
   * student's question only when there is no earlier history.
   */
  function ChatPrompt(systemPrompt: string, message: string, history: Option<seq<ChatTurn>>): (prompt: string)
    ensures |prompt| >= |message| && prompt[|prompt| - |message|..] == message
    ensures (history.None? || history.value == []) <==> |prompt| > |message|
    ensures (history.None? || history.value == []) ==>
      |prompt| >= |systemPrompt| && prompt[..|systemPrompt|] == systemPrompt
  {
    if history.Some? && |history.value| > 0 then message
    else systemPrompt + "\n\nStudent's question: " + message
  }
}
