/**
 * The quiz store and grader of `routes/quizzes.py`: quizzes are generated from a
 * language-model completion, kept in an in-memory dict keyed by quiz id, listed,
 * fetched, patched, deleted, and graded against a submitted answer map.
 */
module Quizzes {
  import opened Base
  import opened Text
  import opened Stores

  /** The fields the model must supply for one question (`QuizQuestion` without its id). */
  datatype QuestionFields = QuestionFields(question: string, options: seq<string>, answer: string, explanation: string)

  /** A stored question: its fields and the id `q<i+1>` given at creation. */
  datatype Question = Question(id: string, question: string, options: seq<string>, answer: string, explanation: string)

  datatype Quiz = Quiz(
    id: string,
    classId: string,
    title: string,
    description: Option<string>,
    difficulty: string,
    questions: seq<Question>,
    createdAt: nat,
    updatedAt: nat)

  /** A quiz without its questions, as the list and update endpoints answer. */
  datatype QuizMetadata = QuizMetadata(
    id: string,
    classId: string,
    title: string,
    description: Option<string>,
    difficulty: string,
    questionCount: nat,
    createdAt: nat,
    updatedAt: nat)

  datatype QuizList = QuizList(quizzes: seq<QuizMetadata>, total: nat)

  datatype CreateRequest = CreateRequest(
    classId: string,
    title: string,
    description: Option<string>,
    focus: Option<string>,
    questionCount: int,
    difficulty: string)

  /** `None` leaves the field as it is. */
  datatype UpdateRequest = UpdateRequest(title: Option<string>, description: Option<string>, difficulty: Option<string>)

  /**
   * One item yielded by iterating the decoded completion: either it builds a
   * `QuizQuestion` or the constructor raises (a missing or ill-typed field, a
   * key `id` that clashes with the assigned one, an item that is not an object).
   */
  datatype Item = Fits(fields: QuestionFields) | Misfit

  /**
   * What the agent call and `json.loads` make of a generation request. A decoded
   * JSON object or string iterates over its keys or characters, so it appears as
   * `Decoded` with one `Misfit` per key or character (none when it is empty).
   */
  datatype Generation =
    | AgentFailed                  // `run(...)` raised
    | NotJson                      // `json.loads` raised `JSONDecodeError`
    | NotIterable                  // a number, boolean or null: `enumerate` raises
    | Decoded(items: seq<Item>)

  /** Errors as the HTTP status they surface as. */
  datatype Failure =
    | NotFound                     // 404
    | AiResponseUnparsable         // 500 "Failed to parse quiz response from AI"
    | Internal                     // 500 "Error creating quiz: ..."

  datatype QuestionResult = QuestionResult(
    questionId: string,
    questionText: string,
    userAnswer: Option<string>,
    correctAnswer: string,
    isCorrect: bool,
    explanation: string)

  datatype SubmissionResult = SubmissionResult(
    quizId: string,
    score: nat,
    correctCount: nat,
    totalCount: nat,
    timeTaken: Option<int>,
    results: seq<QuestionResult>,
    timestamp: nat)

  // ---------------------------------------------------------------- question ids

  /** The id of the question at position `i` (0-based): `f"q{i+1}"`. */
  function QuestionId(i: nat): (id: string)
    ensures |id| >= 2 && id[0] == 'q'
  {
    "q" + Decimal(i + 1)
  }

  lemma QuestionIdsDistinct(i: nat, j: nat)
    requires i != j
    ensures QuestionId(i) != QuestionId(j)
  {
    if QuestionId(i) == QuestionId(j) {
      assert Decimal(i + 1) == QuestionId(i)[1..] == QuestionId(j)[1..] == Decimal(j + 1);
      DecimalInjective(i + 1, j + 1);
    }
  }

  /** The questions carry the ids `q1..qN` in order. */
  ghost predicate Numbered(qs: seq<Question>)
  {
    forall i :: 0 <= i < |qs| ==> qs[i].id == QuestionId(i)
  }

  lemma NumberedIdsUnique(qs: seq<Question>)
    requires Numbered(qs)
    ensures forall i, j :: 0 <= i < j < |qs| ==> qs[i].id != qs[j].id
  {
    forall i, j | 0 <= i < j < |qs| ensures qs[i].id != qs[j].id {
      QuestionIdsDistinct(i, j);
    }
  }

  function WithId(id: string, f: QuestionFields): Question
  {
    Question(id, f.question, f.options, f.answer, f.explanation)
  }

  /** Every item of the completion builds a question, so creation goes through. */
  predicate Accepted(g: Generation)
  {
    g.Decoded? && forall i :: 0 <= i < |g.items| ==> g.items[i].Fits?
  }

  /** The failure `create_quiz` reports for a completion it cannot use. */
  function RejectionOf(g: Generation): (f: Failure)
    requires !Accepted(g)
    ensures f == AiResponseUnparsable <==> g.NotJson?
    ensures f != NotFound
  {
    if g.NotJson? then AiResponseUnparsable else Internal
  }

  // ---------------------------------------------------------------- reads

  function Metadata(q: Quiz): (m: QuizMetadata)
    ensures m.questionCount == |q.questions|
    ensures m.id == q.id && m.classId == q.classId && m.title == q.title
    ensures m.description == q.description && m.difficulty == q.difficulty
    ensures m.createdAt == q.createdAt && m.updatedAt == q.updatedAt
  {
    QuizMetadata(q.id, q.classId, q.title, q.description, q.difficulty, |q.questions|, q.createdAt, q.updatedAt)
  }

  /** `list_quizzes`: the metadata of the stored quizzes that pass the class filter, in store order. */
  function ListQuizzes(db: map<string, Quiz>, order: seq<string>, classId: Option<string>): (r: QuizList)
    requires forall k :: k in order ==> k in db
    ensures var keys := KeysWhere(order, db, (q: Quiz) => PassesClassFilter(classId, q.classId));
      && |r.quizzes| == |keys|
      && (forall i :: 0 <= i < |keys| ==> r.quizzes[i] == Metadata(db[keys[i]]))
    ensures r.total == |r.quizzes|
  {
    var keys := KeysWhere(order, db, (q: Quiz) => PassesClassFilter(classId, q.classId));
    var ms := seq(|keys|, i requires 0 <= i < |keys| => Metadata(db[keys[i]]));
    QuizList(ms, |ms|)
  }

  /** Without a class filter, or with an empty one, every stored quiz is listed, in store order. */
  lemma UnfilteredListsAll(db: map<string, Quiz>, order: seq<string>, classId: Option<string>)
    requires forall k :: k in order ==> k in db
    requires classId.None? || classId.value == ""
    ensures var r := ListQuizzes(db, order, classId);
      && r.total == |order|
      && forall i :: 0 <= i < |order| ==> r.quizzes[i] == Metadata(db[order[i]])
  {
    KeepAll(order, db, (q: Quiz) => PassesClassFilter(classId, q.classId));
  }

  /**
   * With a non-empty class filter the listed keys are exactly the stored quizzes
   * of that class, each once, in store order.
   */
  lemma ListedQuizzesOfClass(db: map<string, Quiz>, order: seq<string>, c: string)
    requires forall k :: k in order <==> k in db
    requires NoDuplicates(order)
    requires c != ""
    ensures var keys := KeysWhere(order, db, (q: Quiz) => PassesClassFilter(Some(c), q.classId));
      && (forall k :: k in keys <==> k in db && db[k].classId == c)
      && IsSubsequence(keys, order)
      && NoDuplicates(keys)
  {
    var keys := KeysWhere(order, db, (q: Quiz) => PassesClassFilter(Some(c), q.classId));
    SubsequenceNoDuplicates(keys, order);
  }

  /** `get_quiz`. */
  function GetQuiz(db: map<string, Quiz>, id: string): (r: Result<Quiz, Failure>)
    ensures r.Ok? <==> id in db
    ensures r.Ok? ==> r.value == db[id]
    ensures r.Err? ==> r.error == NotFound
  {
    if id in db then Ok(db[id]) else Err(NotFound)
  }

  /** The record `update_quiz` leaves behind: only the supplied fields change. */
  function Patched(q: Quiz, u: UpdateRequest, now: nat): (r: Quiz)
    ensures r.id == q.id && r.classId == q.classId && r.questions == q.questions && r.createdAt == q.createdAt
    ensures r.updatedAt == now
    ensures r.title == (if u.title.Some? then u.title.value else q.title)
    ensures r.description == (if u.description.Some? then u.description else q.description)
    ensures r.difficulty == (if u.difficulty.Some? then u.difficulty.value else q.difficulty)
  {
    var q1 := if u.title.Some? then q.(title := u.title.value) else q;
    var q2 := if u.description.Some? then q1.(description := u.description) else q1;
    var q3 := if u.difficulty.Some? then q2.(difficulty := u.difficulty.value) else q2;
    q3.(updatedAt := now)
  }

  /** A description, once set, cannot be cleared: `None` means "leave it". */
  lemma PatchNeverClearsDescription(q: Quiz, u: UpdateRequest, now: nat)
    requires q.description.Some?
    ensures Patched(q, u, now).description.Some?
  {
  }

  /** Re-applying the same patch later only moves `updatedAt`. */
  lemma PatchIdempotent(q: Quiz, u: UpdateRequest, t1: nat, t2: nat)
    ensures Patched(Patched(q, u, t1), u, t2) == Patched(q, u, t2)
  {
  }

  // ---------------------------------------------------------------- grading

  /** `request.answers.get(question_id)`. */
  function AnswerFor(answers: map<string, string>, id: string): (a: Option<string>)
    ensures a.Some? <==> id in answers
    ensures a.Some? ==> a.value == answers[id]
  {
    if id in answers then Some(answers[id]) else None
  }

  predicate AnsweredCorrectly(q: Question, answers: map<string, string>)
  {
    q.id in answers && answers[q.id] == q.answer
  }

  /** The result entry for one question; a missing answer is simply wrong. */
  function Assess(q: Question, answers: map<string, string>): (r: QuestionResult)
    ensures r.isCorrect <==> AnsweredCorrectly(q, answers)
    ensures r.questionId == q.id && r.questionText == q.question
    ensures r.correctAnswer == q.answer && r.explanation == q.explanation
    ensures r.userAnswer == AnswerFor(answers, q.id)
  {
    var user := AnswerFor(answers, q.id);
    QuestionResult(q.id, q.question, user, q.answer, user == Some(q.answer), q.explanation)
  }

  /** The number of questions answered correctly. */
  function CorrectCount(qs: seq<Question>, answers: map<string, string>): (n: nat)
    ensures n <= |qs|
  {
    if qs == [] then 0
    else CorrectCount(qs[..|qs| - 1], answers) + (if AnsweredCorrectly(qs[|qs| - 1], answers) then 1 else 0)
  }

  lemma {:induction false} AllCorrect(qs: seq<Question>, answers: map<string, string>)
    requires forall i :: 0 <= i < |qs| ==> AnsweredCorrectly(qs[i], answers)
    ensures CorrectCount(qs, answers) == |qs|
  {
    if qs != [] {
      AllCorrect(qs[..|qs| - 1], answers);
    }
  }

  lemma {:induction false} NoneCorrect(qs: seq<Question>, answers: map<string, string>)
    requires forall i :: 0 <= i < |qs| ==> !AnsweredCorrectly(qs[i], answers)
    ensures CorrectCount(qs, answers) == 0
  {
    if qs != [] {
      NoneCorrect(qs[..|qs| - 1], answers);
    }
  }

  /** Submitting an empty answer map scores nothing, and is not an error. */
  lemma EmptySubmission(qs: seq<Question>)
    ensures CorrectCount(qs, map[]) == 0
  {
    NoneCorrect(qs, map[]);
  }

  /**
   * `round(correct / total * 100)` with the zero-total guard, computed on the
   * exact ratio: see `PercentNearest` for what it rounds to.
   */
  function RoundedPercent(correct: nat, total: nat): (score: nat)
    requires correct <= total
    ensures score <= 100
    ensures total == 0 ==> score == 0
  {
    if total == 0 then 0
    else
      var p := 100 * correct;
      var q := p / total;
      var rem := p % total;
      PercentQuotientBound(p, total);
      if 2 * rem < total || (2 * rem == total && q % 2 == 0) then q
      else
        assert q < 100;
        q + 1
  }

  lemma PercentQuotientBound(p: nat, total: nat)
    requires 0 < total && p <= 100 * total
    ensures p / total <= 100
  {
  }

  /**
   * The score is the integer nearest to the percentage, and on an exact tie the
   * even one, as Python's `round` chooses.
   */
  lemma PercentNearest(correct: nat, total: nat)
    requires 0 < total && correct <= total
    ensures var s := RoundedPercent(correct, total);
      && 2 * (s * total - 100 * correct) <= total
      && 2 * (100 * correct - s * total) <= total
      && (2 * (s * total - 100 * correct) == total ==> s % 2 == 0)
      && (2 * (100 * correct - s * total) == total ==> s % 2 == 0)
  {
    var p := 100 * correct;
    var q := p / total;
    assert p == q * total + p % total;
    assert (q + 1) * total == q * total + total;
  }

  /** All answers right scores 100, none right scores 0. */
  lemma PercentEndpoints(correct: nat, total: nat)
    requires correct <= total
    ensures correct == 0 ==> RoundedPercent(correct, total) == 0
    ensures 0 < total && correct == total ==> RoundedPercent(correct, total) == 100
  {
    if 0 < total && correct == total {
      assert 100 * correct / total == 100;
    }
  }

  /**
   * The grading loop of `submit_quiz`: one result per question, in question order,
   * and the number of correct answers.
   */
  method Grade(qs: seq<Question>, answers: map<string, string>) returns (results: seq<QuestionResult>, correct: nat)
    ensures |results| == |qs|
    ensures forall i :: 0 <= i < |qs| ==> results[i] == Assess(qs[i], answers)
    ensures correct == CorrectCount(qs, answers)
    ensures correct <= |qs|
  {
    correct := 0;
    results := [];
    for i := 0 to |qs|
      invariant |results| == i
      invariant forall j :: 0 <= j < i ==> results[j] == Assess(qs[j], answers)
      invariant correct == CorrectCount(qs[..i], answers)
    {
      var r := Assess(qs[i], answers);
      if r.isCorrect {
        correct := correct + 1;
      }
      results := results + [r];
      assert qs[..i + 1][..i] == qs[..i];
    }
    assert qs[..|qs|] == qs;
  }

  /** The answer key of a quiz: each question id mapped to its stored answer. */
  function AnswerKey(qs: seq<Question>): (key: map<string, string>)
    ensures forall k :: k in key <==> exists i :: 0 <= i < |qs| && qs[i].id == k
  {
    if qs == [] then map[] else AnswerKey(qs[..|qs| - 1])[qs[|qs| - 1].id := qs[|qs| - 1].answer]
  }

  lemma {:induction false} AnswerKeyAnswers(qs: seq<Question>)
    requires forall i, j :: 0 <= i < j < |qs| ==> qs[i].id != qs[j].id
    ensures forall i :: 0 <= i < |qs| ==> AnsweredCorrectly(qs[i], AnswerKey(qs))
  {
    if qs != [] {
      var init := qs[..|qs| - 1];
      AnswerKeyAnswers(init);
      forall i | 0 <= i < |qs| ensures AnsweredCorrectly(qs[i], AnswerKey(qs)) {
        if i < |qs| - 1 {
          assert qs[i] == init[i];
          assert AnsweredCorrectly(init[i], AnswerKey(init));
        }
      }
    }
  }

  /** Submitting a quiz's own answers scores 100 whenever it has a question. */
  lemma PerfectSubmission(qs: seq<Question>)
    requires Numbered(qs) && qs != []
    ensures CorrectCount(qs, AnswerKey(qs)) == |qs|
    ensures RoundedPercent(CorrectCount(qs, AnswerKey(qs)), |qs|) == 100
  {
    NumberedIdsUnique(qs);
    AnswerKeyAnswers(qs);
    AllCorrect(qs, AnswerKey(qs));
    PercentEndpoints(|qs|, |qs|);
  }

  /** The midterm example: answers A and C against stored A and D give 1 of 2, score 50. */
  lemma MidtermExample()
    ensures var qs := [
          WithId(QuestionId(0), QuestionFields("Q1", ["A", "B"], "A", "e1")),
          WithId(QuestionId(1), QuestionFields("Q2", ["C", "D"], "D", "e2"))];
      && qs[0].id == "q1" && qs[1].id == "q2"
      && CorrectCount(qs, map["q1" := "A", "q2" := "C"]) == 1
      && RoundedPercent(1, 2) == 50
  {
    var qs := [
      WithId(QuestionId(0), QuestionFields("Q1", ["A", "B"], "A", "e1")),
      WithId(QuestionId(1), QuestionFields("Q2", ["C", "D"], "D", "e2"))];
    var answers := map["q1" := "A", "q2" := "C"];
    assert QuestionId(0) == "q" + Decimal(1) == "q" + "1" == "q1";
    assert QuestionId(1) == "q" + Decimal(2) == "q" + "2" == "q2";
    assert qs[..1][..0] == [];
    assert AnsweredCorrectly(qs[0], answers) && !AnsweredCorrectly(qs[1], answers);
    assert CorrectCount(qs[..1], answers) == 1;
    assert qs[..|qs| - 1] == qs[..1];
  }

  // ---------------------------------------------------------------- the store

  /** `quizzes_db`, with the dict's insertion order and the clock `datetime.utcnow()` reads. */
  class QuizStore {
    var quizzes: map<string, Quiz>
    var order: seq<string>
    var clock: nat
    /** Every id ever handed out; uuid4 never repeats one, even after a delete. */
    ghost var issued: set<string>

    ghost predicate Valid()
      reads this
    {
      && (forall k :: k in quizzes <==> k in order)
      && NoDuplicates(order)
      && quizzes.Keys <= issued
      && (forall k :: k in quizzes ==>
            && quizzes[k].id == k
            && Numbered(quizzes[k].questions)
            && quizzes[k].createdAt <= quizzes[k].updatedAt < clock)
    }

    constructor ()
      ensures Valid()
      ensures quizzes == map[] && order == [] && issued == {}
    {
      quizzes := map[];
      order := [];
      clock := 0;
      issued := {};
    }

    /** One reading of the clock; every reading is later than the previous ones. */
    method Now() returns (t: nat)
      modifies this`clock
      ensures t == old(clock) && clock == old(clock) + 1
    {
      t := clock;
      clock := clock + 1;
    }

    /** The question-building loop of `create_quiz`: ids `q1..qN` in item order, or the first misfit. */
    static method BuildQuestions(items: seq<Item>) returns (r: Option<seq<Question>>)
      ensures r.Some? <==> forall i :: 0 <= i < |items| ==> items[i].Fits?
      ensures r.Some? ==> |r.value| == |items|
      ensures r.Some? ==> forall i :: 0 <= i < |items| ==> r.value[i] == WithId(QuestionId(i), items[i].fields)
    {
      var questions := [];
      for i := 0 to |items|
        invariant |questions| == i
        invariant forall j :: 0 <= j < i ==> items[j].Fits? && questions[j] == WithId(QuestionId(j), items[j].fields)
      {
        if items[i].Misfit? {
          return None;
        }
        questions := questions + [WithId(QuestionId(i), items[i].fields)];
      }
      r := Some(questions);
    }

    /**
     * `create_quiz`: a quiz is stored only when every item of the completion
     * builds a question; the new key is fresh and nothing else changes.
     */
    method Create(req: CreateRequest, gen: Generation, id: string) returns (r: Result<Quiz, Failure>)
      requires Valid()
      requires id !in issued
      modifies this
      ensures Valid()
      ensures r.Ok? <==> Accepted(gen)
      ensures r.Err? ==> r.error == RejectionOf(gen)
      ensures r.Err? ==> quizzes == old(quizzes) && order == old(order) && issued == old(issued) && clock == old(clock)
      ensures r.Ok? ==>
        && id !in old(quizzes)
        && quizzes == old(quizzes)[id := r.value]
        && order == old(order) + [id]
        && issued == old(issued) + {id}
        && r.value.id == id
        && r.value.classId == req.classId && r.value.title == req.title
        && r.value.description == req.description && r.value.difficulty == req.difficulty
        && |r.value.questions| == |gen.items|
        && (forall i :: 0 <= i < |gen.items| ==> r.value.questions[i] == WithId(QuestionId(i), gen.items[i].fields))
        && r.value.createdAt == r.value.updatedAt == old(clock)
    {
      if gen.AgentFailed? || gen.NotIterable? {
        return Err(Internal);
      }
      if gen.NotJson? {
        return Err(AiResponseUnparsable);
      }
      var built := BuildQuestions(gen.items);
      if built.None? {
        return Err(Internal);
      }
      var questions := built.value;
      assert Numbered(questions);
      var timestamp := Now();
      var quiz := Quiz(id, req.classId, req.title, req.description, req.difficulty, questions, timestamp, timestamp);
      quizzes := quizzes[id := quiz];
      order := order + [id];
      issued := issued + {id};
      r := Ok(quiz);
    }

    /** `update_quiz`: patches the supplied fields of one quiz and restamps it. */
    method Update(id: string, u: UpdateRequest) returns (r: Result<QuizMetadata, Failure>)
      requires Valid()
      modifies this
      ensures Valid()
      ensures order == old(order) && issued == old(issued)
      ensures id !in old(quizzes) ==> r == Err(NotFound) && quizzes == old(quizzes) && clock == old(clock)
      ensures id in old(quizzes) ==>
        && quizzes == old(quizzes)[id := Patched(old(quizzes)[id], u, old(clock))]
        && r == Ok(Metadata(quizzes[id]))
        && quizzes[id].updatedAt > old(quizzes)[id].updatedAt
    {
      if id !in quizzes {
        return Err(NotFound);
      }
      var t := Now();
      var q := Patched(quizzes[id], u, t);
      quizzes := quizzes[id := q];
      r := Ok(Metadata(q));
    }

    /** `delete_quiz`: removes exactly that key; a second delete of it is a 404. */
    method Delete(id: string) returns (r: Result<(), Failure>)
      requires Valid()
      modifies this
      ensures Valid()
      ensures issued == old(issued) && clock == old(clock)
      ensures id !in old(quizzes) ==> r == Err(NotFound) && quizzes == old(quizzes) && order == old(order)
      ensures id in old(quizzes) ==> r == Ok(()) && quizzes == old(quizzes) - {id} && order == Remove(old(order), id)
    {
      if id !in quizzes {
        return Err(NotFound);
      }
      RemoveKeepsNoDuplicates(order, id);
      quizzes := quizzes - {id};
      order := Remove(order, id);
      r := Ok(());
    }

    /** `submit_quiz`: grades the answers; only the clock moves. */
    method Submit(quizId: string, answers: map<string, string>, timeTaken: Option<int>) returns (r: Result<SubmissionResult, Failure>)
      requires Valid()
      modifies this`clock
      ensures Valid()
      ensures quizId !in quizzes ==> r == Err(NotFound) && clock == old(clock)
      ensures quizId in quizzes ==>
        var qs := quizzes[quizId].questions;
        && r.Ok?
        && r.value.quizId == quizId
        && r.value.totalCount == |qs|
        && r.value.correctCount == CorrectCount(qs, answers)
        && r.value.score == RoundedPercent(r.value.correctCount, r.value.totalCount)
        && |r.value.results| == |qs|
        && (forall i :: 0 <= i < |qs| ==> r.value.results[i] == Assess(qs[i], answers))
        && r.value.timeTaken == timeTaken
    {
      if quizId !in quizzes {
        return Err(NotFound);
      }
      var qs := quizzes[quizId].questions;
      var results, correct := Grade(qs, answers);
      var score := RoundedPercent(correct, |qs|);
      var t := Now();
      r := Ok(SubmissionResult(quizId, score, correct, |qs|, timeTaken, results, t));
    }
  }

  /** Deleting a quiz makes it unfetchable, and deleting it again fails. */
  method DeleteIsNotIdempotent(store: QuizStore, id: string) returns (first: Result<(), Failure>, second: Result<(), Failure>)
    requires store.Valid() && id in store.quizzes
    modifies store
    ensures store.Valid()
    ensures first == Ok(()) && second == Err(NotFound)
    ensures GetQuiz(store.quizzes, id) == Err(NotFound)
  {
    first := store.Delete(id);
    second := store.Delete(id);
  }
}
