/**
 * `generate_quiz` of the chatbot adapter: questions drawn from a fixed bank,
 * preferring those on the requested topic.
 */
module ChatbotAdapter {
  import opened Base
  import opened Text
  import opened Stores
  import opened Sampling

  datatype BankQuestion = BankQuestion(
    id: string,
    prompt: string,
    topic: string,
    difficulty: string,
    options: seq<string>,
    correctIndex: int,
    explanation: string)

  const Q1 := BankQuestion("q1", "What does (first '(10 20 30)) return?", "Lists", "Easy",
    ["'(10 20 30)", "10", "20", "30"], 1, "first returns the first element.")
  const Q2 := BankQuestion("q2", "What does (rest '(10 20 30)) return?", "Lists", "Easy",
    ["'(10 20 30)", "'(20 30)", "20", "30"], 1, "rest returns the list without first element.")
  const Q3 := BankQuestion("q3", "foldr processes list from which direction?", "Higher-order functions", "Medium",
    ["Left", "Right", "Random", "Depends"], 1, "foldr combines from right to left.")

  /** `QUESTION_BANK`, in its order. */
  const QuestionBank: seq<BankQuestion> := [Q1, Q2, Q3]

  /** Fewer matches than this and the whole bank is used instead. */
  const MinMatches := 2

  const DefaultTopic := "General"
  const DefaultQuestionCount := 5

  datatype GeneratedQuiz = GeneratedQuiz(topic: string, numQuestions: int, questions: seq<BankQuestion>)

  /** Bank ids are unique and every `correct_index` points into its options. */
  lemma BankWellFormed()
    ensures forall i, j :: 0 <= i < j < |QuestionBank| ==> QuestionBank[i].id != QuestionBank[j].id
    ensures forall q :: q in QuestionBank ==> 0 <= q.correctIndex < |q.options|
    ensures NoDuplicates(QuestionBank)
  {
  }

  function Matches(topic: string): seq<BankQuestion>
  {
    Matching(QuestionBank, (q: BankQuestion) => q.topic, topic)
  }

  /** `matching if len(matching) >= 2 else QUESTION_BANK`. */
  function Pool(topic: string): (pool: seq<BankQuestion>)
    ensures pool == Matches(topic) <==> |Matches(topic)| >= MinMatches
    ensures pool != Matches(topic) ==> pool == QuestionBank
    ensures |pool| >= MinMatches
    ensures NoDuplicates(pool)
  {
    var matching := Matches(topic);
    BankWellFormed();
    SubsequenceNoDuplicates(matching, QuestionBank);
    if |matching| >= MinMatches then matching else QuestionBank
  }

  /**
   * `generate_quiz(topic, num_questions)`: `min(num_questions, len(pool))` distinct
   * pool entries, with the topic echoed. A negative count makes `random.sample`
   * raise `ValueError`.
   */
  function GenerateQuiz(topic: string, numQuestions: int, draw: nat -> nat): (r: Result<GeneratedQuiz, SampleError>)
    ensures r.Err? <==> numQuestions < 0
    ensures r.Ok? ==>
      && r.value.topic == topic
      && r.value.numQuestions == |r.value.questions| == Min(numQuestions, |Pool(topic)|)
      && multiset(r.value.questions) <= multiset(Pool(topic))
      && NoDuplicates(r.value.questions)
  {
    var pool := Pool(topic);
    match Sample(pool, Min(numQuestions, |pool|), draw)
    case Ok(chosen) => Ok(GeneratedQuiz(topic, |chosen|, chosen))
    case Err(e) => Err(e)
  }

  /** Every generated question is a bank entry, so its answer index is usable. */
  lemma GeneratedFromBank(topic: string, numQuestions: int, draw: nat -> nat)
    requires numQuestions >= 0
    ensures var quiz := GenerateQuiz(topic, numQuestions, draw).value;
      forall q :: q in quiz.questions ==> q in QuestionBank && 0 <= q.correctIndex < |q.options|
  {
    var quiz := GenerateQuiz(topic, numQuestions, draw).value;
    var pool := Pool(topic);
    SampleMembers(pool, quiz.questions);
    SubsequenceMembers(Matches(topic), QuestionBank);
    BankWellFormed();
  }

  /** Which bank entries a topic selects, decided by its two distinct bank topics. */
  lemma MatchesByTopic(topic: string)
    ensures var query := Lower(topic);
      Matches(topic) ==
        (if Contains("lists", query) then [Q1, Q2] else []) +
        (if Contains("higher-order functions", query) then [Q3] else [])
  {
    var topicOf := (q: BankQuestion) => q.topic;
    var b0 := QuestionBank;
    MatchingCons(b0, topicOf, topic);
    var b1 := b0[1..];
    MatchingCons(b1, topicOf, topic);
    var b2 := b1[1..];
    MatchingCons(b2, topicOf, topic);
    assert b2[1..] == [];
    LowerBankTopics();
  }

  lemma LowerBankTopics()
    ensures Lower(Q1.topic) == Lower(Q2.topic) == "lists"
    ensures Lower(Q3.topic) == "higher-order functions"
  {
  }

  /** Only q3 is about "Higher", and one match is too few: the whole bank is the pool. */
  lemma SingleMatchFallsBack()
    ensures Matches("Higher") == [Q3]
    ensures Pool("Higher") == QuestionBank
  {
    MatchesByTopic("Higher");
    assert Lower("Higher") == "higher";
    assert "higher" <= "higher-order functions";
  }

  /** "Lists" selects q1 and q2, which are enough to be the pool. */
  lemma TwoMatchesSuffice()
    ensures Matches("Lists") == [Q1, Q2]
    ensures Pool("Lists") == [Q1, Q2]
  {
    MatchesByTopic("Lists");
    LowerBankTopics();
    assert "lists" <= "lists";
    NoLetterL("higher-order functions", "lists");
  }

  /**
   * The call with every argument at its default, `generate_quiz("General", 5)`:
   * no bank topic mentions "general", so all three bank questions come back.
   */
  lemma DefaultCall(topic: string, numQuestions: int, draw: nat -> nat)
    requires topic == DefaultTopic && numQuestions == DefaultQuestionCount
    ensures Matches(topic) == [] && Pool(topic) == QuestionBank
    ensures GenerateQuiz(topic, numQuestions, draw).Ok?
    ensures multiset(GenerateQuiz(topic, numQuestions, draw).value.questions) == multiset(QuestionBank)
  {
    NothingMatchesGeneral(topic);
    var chosen := GenerateQuiz(topic, numQuestions, draw).value.questions;
    AllOfPool(QuestionBank, chosen);
  }

  lemma NothingMatchesGeneral(topic: string)
    requires topic == DefaultTopic
    ensures Matches(topic) == []
  {
    LowerGeneral(topic);
    MatchesByTopic(topic);
    NoGeneral("higher-order functions", Lower(topic));
  }

  lemma LowerGeneral(topic: string)
    requires topic == DefaultTopic
    ensures Lower(topic) == "general"
  {
  }

  /** "higher-order functions" has no "ge", so "general" does not occur in it. */
  lemma NoGeneral(hay: string, needle: string)
    requires hay == "higher-order functions" && needle == "general"
    ensures !Contains(hay, needle)
  {
    ContainsPair(hay, needle);
    assert forall i :: 0 <= i < |hay| - 1 ==> !(hay[i] == 'g' && hay[i + 1] == 'e');
  }

  /** A sample as large as a duplicate-free pool holds the whole pool. */
  lemma AllOfPool<T>(pool: seq<T>, chosen: seq<T>)
    requires |chosen| == |pool| && multiset(chosen) <= multiset(pool)
    ensures multiset(chosen) == multiset(pool)
  {
    assert |multiset(chosen)| == |chosen| && |multiset(pool)| == |pool|;
    assert |multiset(pool) - multiset(chosen)| == |pool| - |chosen|;
  }

  /** "higher-order functions" has no 'l', so "lists" does not occur in it. */
  lemma NoLetterL(hay: string, needle: string)
    requires hay == "higher-order functions" && needle == "lists"
    ensures !Contains(hay, needle)
  {
    ContainsFirstChar(hay, needle);
    assert needle[0] == 'l';
  }
}
