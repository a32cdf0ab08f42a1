/**
 * `POST /quiz/generate`: the request bounds, the topic filter with a fallback
 * only when nothing matches, and the bounded sample.
 *
 * As written the handler calls `random.sample` in a module that never imports
 * `random`, so every request that passes validation ends in `NameError`.
 * `GenerateQuizAsWritten` is that behaviour; `GenerateQuiz` is the handler with
 * the import in place.
 */
module QuizEndpoint {
  import opened Base
  import opened Text
  import opened Stores
  import opened Sampling
  import ChatbotAdapter

  /** `GenerateQuizRequest`: `topic` has `min_length=1`, `num_questions` is `ge=1, le=50`. */
  datatype GenerateQuizRequest = GenerateQuizRequest(topic: string, numQuestions: int)

  const MaxQuestions := 50

  /** The request with every field left at its default. */
  const DefaultRequest := GenerateQuizRequest("General", 5)

  predicate WithinBounds(req: GenerateQuizRequest)
  {
    |req.topic| >= 1 && 1 <= req.numQuestions <= MaxQuestions
  }

  /** `min_length=1`, `ge=1` and `le=50` at their edges: the default request passes. */
  lemma BoundsAtEdges(topic: string)
    requires |topic| >= 1
    ensures WithinBounds(DefaultRequest)
    ensures WithinBounds(GenerateQuizRequest(topic, 1)) && WithinBounds(GenerateQuizRequest(topic, 50))
    ensures !WithinBounds(GenerateQuizRequest(topic, 0)) && !WithinBounds(GenerateQuizRequest(topic, 51))
    ensures !WithinBounds(GenerateQuizRequest("", 5))
  {
  }

  datatype QuizQuestionOut = QuizQuestionOut(id: string, prompt: string, topic: string, difficulty: string, options: seq<string>)

  const Q1 := QuizQuestionOut("q1", "What does (first '(10 20 30)) return?", "Lists", "Easy",
    ["'(10 20 30)", "10", "20", "30"])
  const Q2 := QuizQuestionOut("q2", "What does (rest '(10 20 30)) return?", "Lists", "Easy",
    ["'(10 20 30)", "'(20 30)", "20", "30"])
  const Q3 := QuizQuestionOut("q3", "foldr processes list from which direction?", "Higher-order functions", "Medium",
    ["Left", "Right", "Random", "Depends"])

  /** This module's own `QUESTION_BANK`: the adapter's entries without answers or explanations. */
  const QuestionBank: seq<QuizQuestionOut> := [Q1, Q2, Q3]

  /** Any match at all is used; only an empty match falls back to the bank. */
  const MinMatches := 1

  datatype GenerateQuizResponse = GenerateQuizResponse(topic: string, numQuestions: int, questions: seq<QuizQuestionOut>)

  /** A request outside the bounds is answered 422 before the handler runs; `NameError` is a 500. */
  datatype Failure = ValidationFailed | RandomNotDefined

  function Matches(topic: string): seq<QuizQuestionOut>
  {
    Matching(QuestionBank, (q: QuizQuestionOut) => q.topic, topic)
  }

  /** `matching if len(matching) >= 1 else QUESTION_BANK`: never empty. */
  function Pool(topic: string): (pool: seq<QuizQuestionOut>)
    ensures pool == Matches(topic) <==> |Matches(topic)| >= MinMatches
    ensures pool != Matches(topic) ==> pool == QuestionBank
    ensures 1 <= |pool| <= |QuestionBank|
    ensures NoDuplicates(pool)
  {
    var matching := Matches(topic);
    assert NoDuplicates(QuestionBank);
    SubsequenceNoDuplicates(matching, QuestionBank);
    SubsequenceMembers(matching, QuestionBank);
    if |matching| >= MinMatches then matching else QuestionBank
  }

  /**
   * The handler with `random` imported: a validated request gets between one and
   * three distinct pool entries, `min(num_questions, len(pool))` of them.
   */
  function GenerateQuiz(req: GenerateQuizRequest, draw: nat -> nat): (r: Result<GenerateQuizResponse, Failure>)
    ensures r.Err? <==> !WithinBounds(req)
    ensures r.Err? ==> r.error == ValidationFailed
    ensures r.Ok? ==>
      && r.value.topic == req.topic
      && r.value.numQuestions == |r.value.questions| == Min(req.numQuestions, |Pool(req.topic)|)
      && 1 <= |r.value.questions| <= 3
      && multiset(r.value.questions) <= multiset(Pool(req.topic))
      && NoDuplicates(r.value.questions)
  {
    if !WithinBounds(req) then Err(ValidationFailed)
    else
      var pool := Pool(req.topic);
      var chosen := Sample(pool, Min(req.numQuestions, |pool|), draw).value;
      Ok(GenerateQuizResponse(req.topic, |chosen|, chosen))
  }

  /** The handler as written: validation, then `NameError` at the `random.sample` call. */
  function GenerateQuizAsWritten(req: GenerateQuizRequest): (r: Result<GenerateQuizResponse, Failure>)
    ensures r.Err?
    ensures r.error == ValidationFailed <==> !WithinBounds(req)
  {
    if !WithinBounds(req) then Err(ValidationFailed) else Err(RandomNotDefined)
  }

  /** Every valid request fails as written, while the corrected handler answers it. */
  lemma AsWrittenNeverAnswers(req: GenerateQuizRequest, draw: nat -> nat)
    requires WithinBounds(req)
    ensures GenerateQuizAsWritten(req) == Err(RandomNotDefined)
    ensures GenerateQuiz(req, draw).Ok?
  {
  }

  /** The default request shows it: a 500 as written, all three questions once `random` is imported. */
  lemma DefaultRequestFails(req: GenerateQuizRequest, draw: nat -> nat)
    requires req == DefaultRequest
    ensures GenerateQuizAsWritten(req) == Err(RandomNotDefined)
    ensures GenerateQuiz(req, draw).Ok?
    ensures Pool(req.topic) == QuestionBank
    ensures |GenerateQuiz(req, draw).value.questions| == |QuestionBank|
  {
    AsWrittenNeverAnswers(req, draw);
    ChatbotAdapter.LowerGeneral(req.topic);
    MatchesByTopic(req.topic);
    ChatbotAdapter.NoGeneral("higher-order functions", Lower(req.topic));
  }

  /** Which bank entries a topic selects, decided by its two distinct bank topics. */
  lemma MatchesByTopic(topic: string)
    ensures var query := Lower(topic);
      Matches(topic) ==
        (if Contains("lists", query) then [Q1, Q2] else []) +
        (if Contains("higher-order functions", query) then [Q3] else [])
  {
    var topicOf := (q: QuizQuestionOut) => q.topic;
    var b0 := QuestionBank;
    MatchingCons(b0, topicOf, topic);
    var b1 := b0[1..];
    MatchingCons(b1, topicOf, topic);
    var b2 := b1[1..];
    MatchingCons(b2, topicOf, topic);
    assert b2[1..] == [];
    ChatbotAdapter.LowerBankTopics();
  }

  /** "Higher" matches only q3, and one match is enough for this endpoint. */
  lemma HigherPool(topic: string)
    requires topic == "Higher"
    ensures Pool(topic) == [Q3]
  {
    MatchesByTopic(topic);
    assert Lower(topic) == "higher";
    assert "higher" <= "higher-order functions";
  }

  /** A sample of size one from a one-entry pool is that pool. */
  lemma OnlyChoice<T>(pool: seq<T>, chosen: seq<T>)
    requires |pool| == 1 && |chosen| == 1 && multiset(chosen) <= multiset(pool)
    ensures chosen == pool
  {
    SampleMembers(pool, chosen);
    assert chosen[0] in chosen;
  }

  /**
   * The two generators differ on a topic with one match: here "Higher" yields q3
   * alone, while the adapter falls back to its whole bank.
   */
  lemma ThresholdsDiffer(req: GenerateQuizRequest, draw: nat -> nat)
    requires req == GenerateQuizRequest("Higher", 5)
    ensures Pool(req.topic) == [Q3]
    ensures GenerateQuiz(req, draw).value.questions == [Q3]
    ensures ChatbotAdapter.Pool(req.topic) == ChatbotAdapter.QuestionBank
  {
    HigherPool(req.topic);
    OnlyChoice(Pool(req.topic), GenerateQuiz(req, draw).value.questions);
    ChatbotAdapter.SingleMatchFallsBack();
  }
}
