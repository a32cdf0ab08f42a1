# Study-assistant backend: quizzes, chat sessions and question sampling

This project models the stateful core of a FastAPI backend for a study assistant, and proves properties about that model:

- **The quiz store** (`routes/quizzes.py`). An in-memory dict of quizzes is created from a language-model completion, then listed (optionally by class), fetched, patched, deleted, and graded against a submitted answer map.
- **The chat-session store** (`routes/chat.py`). Two dicts are kept side by side: one holds the sessions, the other each session's message log. Sessions are opened, listed most recently updated first, fetched, renamed, deleted and cleared. `chat` appends a user message and the assistant's reply, opening a session when none is named.
- **Two quiz generators.** The chatbot adapter and the `/quiz/generate` endpoint both filter a fixed question bank by topic, fall back to the whole bank when too few entries match, and draw a bounded random sample.

Layout:

- `base.dfy` holds `Option` and `Result`.
- `text.dfy` holds the Python string operations used here: slicing, ASCII `lower()`, `in`, and `str(n)`.
- `stores.dfy` holds the helpers for dicts that iterate in insertion order: the key sequence, filtering it, and removing from it.
- `quizzes.dfy` and `chat.dfy` hold the two stores. Each store is a class whose map fields are reassigned by its methods. Reads are functions over the maps.
- `sampling.dfy` holds the topic filter and `random.sample`.
- `chatbot_adapter.dfy` and `quiz_endpoint.dfy` hold the two generators.

Where the original's behaviour comes from outside the model, that input is a parameter:

| Outside input | Modelled as |
|---|---|
| `uuid.uuid4()` | a fresh id; a ghost set `issued` records every id handed out |
| `datetime.utcnow()` | `Now()`, a counter that every reading advances |
| The agent call | a value describing what it produced |
| The random source | a function `draw` that `Sample` reads once per pick |

Invariants the store classes keep (`Valid()`):

- Every stored record's id is its key.
- The insertion-order sequence lists each key exactly once.
- Timestamps never run ahead of the clock.
- The chat store's two maps have the same key set, and every message points back to its session.

Behaviour followed exactly as the code has it:

- **Failed agent call in `chat`.** The user message is appended *before* the agent runs. An agent failure therefore leaves that message stored, and leaves any session the call opened. The HTTP answer is still a 500. `Chat.ChatStore.Chat` states this partial write as part of its contract.
- **`update_quiz` cannot clear a field.** It treats `None` as "leave unchanged", so a description, once set, can never be removed.
- **Titles and previews truncate differently.** A session title taken from a message gets `"..."` only when the message is longer than 50 characters. A list preview always gets `"..."`.

## Model

| member | source | states |
|---|---|---|
| Text.Lower | artifacts/backend/app/tools/chatbot_adapter.py:37 | `lower()` keeps the length and lowers each character in place |
| Text.Contains | artifacts/backend/app/tools/chatbot_adapter.py:37 | `needle in hay`: a needle longer than the string never occurs in it |
| Text.ContainsAt | artifacts/backend/app/routes/API_endpoint.py:75 | a needle that occurs at some position of the string makes `in` true |
| Text.ContainsWitness | artifacts/backend/app/routes/API_endpoint.py:75 | conversely, when `in` is true, it returns a position where the needle occurs |
| Text.Decimal | artifacts/backend/app/routes/quizzes.py:51 | `str(i+1)` is a non-empty string of decimal digits, with at least two of them from 10 on |
| Text.DecimalInjective | artifacts/backend/app/routes/quizzes.py:51 | different numbers have different decimal renderings, so `q{i+1}` ids never collide |
| Text.Take | artifacts/backend/app/routes/chat.py:94 | `s[:50]` is a prefix of `s`, of length `min(50, len(s))` |
| Stores.KeysWhere | artifacts/backend/app/routes/quizzes.py:95-99 | the filtered keys are a subsequence of the insertion order, and a key is kept exactly when its record passes the filter |
| Stores.Remove | artifacts/backend/app/routes/quizzes.py:205 | `del` removes exactly that key and keeps the order of the others |
| Stores.KeepAll | artifacts/backend/app/routes/chat.py:77-78 | a filter that keeps every record leaves the whole insertion order, as skipping `if class_id:` does |
| Quizzes.QuestionId | artifacts/backend/app/routes/quizzes.py:51 | a question id starts with `q` and has at least one more character (the decimal number) |
| Quizzes.QuestionIdsDistinct | artifacts/backend/app/routes/quizzes.py:49-54 | questions at different positions get different ids |
| Quizzes.NumberedIdsUnique | artifacts/backend/app/routes/quizzes.py:49-54 | the questions of a created quiz have pairwise distinct ids |
| Quizzes.RejectionOf | artifacts/backend/app/routes/quizzes.py:46-80 | only a completion that is not JSON is reported as "Failed to parse quiz response from AI"; every other failure is a generic 500, never a 404 |
| Quizzes.QuizStore.constructor | artifacts/backend/app/routes/quizzes.py:19 | the store starts empty and consistent |
| Quizzes.QuizStore.Now | artifacts/backend/app/routes/quizzes.py:60 | each reading is the current clock, and the clock then advances |
| Quizzes.QuizStore.BuildQuestions | artifacts/backend/app/routes/quizzes.py:48-54 | succeeds exactly when every item builds a question; then question `i` carries id `q{i+1}` and item `i`'s fields |
| Quizzes.QuizStore.Create | artifacts/backend/app/routes/quizzes.py:33-75 | a quiz is stored exactly when the completion is accepted, under a fresh key appended to the order, with equal creation and update stamps; on failure nothing changes; `Valid()` is kept |
| Quizzes.Metadata | artifacts/backend/app/routes/quizzes.py:102-112 | metadata keeps every field except the questions, which it replaces by their count |
| Quizzes.ListQuizzes | artifacts/backend/app/routes/quizzes.py:95-119 | the listing holds the metadata of exactly the quizzes that pass the class filter, in insertion order, and `total` is its length |
| Quizzes.ListedQuizzesOfClass | artifacts/backend/app/routes/quizzes.py:97-99 | with a non-empty class filter, the listed keys are exactly the stored quizzes of that class, each once, in store order |
| Quizzes.UnfilteredListsAll | artifacts/backend/app/routes/quizzes.py:98-99 | with no class filter, or an empty one, every stored quiz is listed, in store order, and `total` is their number |
| Quizzes.GetQuiz | artifacts/backend/app/routes/quizzes.py:136-141 | a stored id yields its quiz; any other id is a 404 |
| Quizzes.Patched | artifacts/backend/app/routes/quizzes.py:165-173 | only the supplied fields change, and `updatedAt` becomes now; id, class, questions and `createdAt` stay |
| Quizzes.PatchNeverClearsDescription | artifacts/backend/app/routes/quizzes.py:168-169 | an update can never remove a description |
| Quizzes.PatchIdempotent | artifacts/backend/app/routes/quizzes.py:165-173 | applying the same patch twice equals applying it once, at the later time |
| Quizzes.QuizStore.Update | artifacts/backend/app/routes/quizzes.py:159-184 | an unknown id is a 404 that changes nothing; otherwise exactly that quiz is replaced by its patch, its `updatedAt` strictly increases, and its metadata is returned |
| Quizzes.QuizStore.Delete | artifacts/backend/app/routes/quizzes.py:201-206 | an unknown id is a 404 that changes nothing; otherwise exactly that key leaves the map and the order |
| Quizzes.DeleteIsNotIdempotent | artifacts/backend/app/routes/quizzes.py:201-205 | the first delete succeeds, the second answers 404, and afterwards the quiz cannot be fetched |
| Quizzes.AnswerFor | artifacts/backend/app/routes/quizzes.py:236 | `answers.get(id)` is present exactly when the id was answered, and is that answer |
| Quizzes.Assess | artifacts/backend/app/routes/quizzes.py:235-250 | a question is marked correct exactly when its id was answered with the stored answer; a missing answer is wrong, not an error; the entry carries the submitted answer (`answers.get(id)`) and the question's text, answer and explanation |
| Quizzes.CorrectCount | artifacts/backend/app/routes/quizzes.py:231-241 | the correct count never exceeds the number of questions |
| Quizzes.AllCorrect | artifacts/backend/app/routes/quizzes.py:238-241 | when every question is answered correctly, the count is the number of questions |
| Quizzes.NoneCorrect | artifacts/backend/app/routes/quizzes.py:238-241 | when no question is answered correctly, the count is zero |
| Quizzes.EmptySubmission | artifacts/backend/app/routes/quizzes.py:236-238 | an empty answer map scores no correct answers |
| Quizzes.Grade | artifacts/backend/app/routes/quizzes.py:231-250 | the loop yields one result per question, in order, each the question's assessment, and counts exactly the correct ones |
| Quizzes.RoundedPercent | artifacts/backend/app/routes/quizzes.py:253 | the score is between 0 and 100, and is 0 when the quiz has no questions |
| Quizzes.PercentNearest | artifacts/backend/app/routes/quizzes.py:253 | the score is within one half of `100 * correct / total`, and an exact tie goes to the even integer, as Python's `round` does |
| Quizzes.PercentEndpoints | artifacts/backend/app/routes/quizzes.py:253 | no correct answers score 0, and all correct score 100 |
| Quizzes.PerfectSubmission | artifacts/backend/app/routes/quizzes.py:234-253 | submitting a quiz's own answers counts every question correct and scores 100 |
| Quizzes.MidtermExample | artifacts/backend/app/routes/quizzes.py:231-253 | for two questions `q1` and `q2`, answering one right gives 1 correct and a score of 50 |
| Quizzes.QuizStore.Submit | artifacts/backend/app/routes/quizzes.py:224-263 | an unknown id is a 404; otherwise the result carries the correct count, the total, the rounded score and one assessment per question; the store does not change |
| Chat.InitialTitle | artifacts/backend/app/routes/chat.py:41 | an absent or empty title becomes "New Conversation"; any other title is kept; the result is never empty |
| Chat.TitleFromMessage | artifacts/backend/app/routes/chat.py:225 | a message of at most 50 characters is the title as it is; a longer one is cut to its first 50 characters followed by "..." |
| Chat.Preview | artifacts/backend/app/routes/chat.py:85-94 | there is no preview exactly when the log is empty; otherwise it is a prefix of the last message's content, at most 50 characters, followed by "..." |
| Chat.TruncationRulesDiffer | artifacts/backend/app/routes/chat.py:94 | for a short last message the preview is its title plus "...", so the two differ; for a long one they coincide |
| Chat.Log | artifacts/backend/app/routes/chat.py:84 | `messages_db.get(id, [])`: the stored log of a known id, and the empty log otherwise |
| Chat.Summary | artifacts/backend/app/routes/chat.py:87-95 | the metadata counts the log's messages and previews its last one |
| Chat.GetSession | artifacts/backend/app/routes/chat.py:120-136 | a stored session yields its fields with its full log; any other id is a 404 |
| Chat.InsertByRecency | artifacts/backend/app/routes/chat.py:98 | inserting into a list sorted most recent first keeps it sorted and adds one entry |
| Chat.InsertAddsOne | artifacts/backend/app/routes/chat.py:98 | insertion adds exactly the new entry and keeps all the others |
| Chat.SortByRecency | artifacts/backend/app/routes/chat.py:98 | the sort result is ordered by `updated_at` descending and is a permutation of its input |
| Chat.InsertKeepsTies | artifacts/backend/app/routes/chat.py:98 | insertion keeps the relative order of entries that share an `updated_at` |
| Chat.SortIsStable | artifacts/backend/app/routes/chat.py:98 | the sort is stable: sessions with equal `updated_at` keep their store order, as Python's `list.sort` does |
| Chat.ListedKeys | artifacts/backend/app/routes/chat.py:75-79 | the listed session keys are exactly the stored ones that pass the class filter, in insertion order |
| Chat.ListSessions | artifacts/backend/app/routes/chat.py:75-103 | the listing is the sorted metadata of exactly the filtered sessions: sorted most recent first, a permutation of the unsorted metadata, with `total` its length |
| Chat.ChatStore.constructor | artifacts/backend/app/routes/chat.py:19-20 | both stores start empty and consistent |
| Chat.ChatStore.Now | artifacts/backend/app/routes/chat.py:36 | each reading is the current clock, and the clock then advances |
| Chat.ChatStore.Open | artifacts/backend/app/routes/chat.py:35-47 | both maps gain the same fresh key, with an empty log and equal creation and update stamps |
| Chat.ChatStore.Append | artifacts/backend/app/routes/chat.py:234-242 | exactly one message, stamped now and pointing at the session, is appended to that session's log |
| Chat.ChatStore.Touch | artifacts/backend/app/routes/chat.py:266 | only that session's `updated_at` changes, and it becomes now |
| Chat.ChatStore.CreateSession | artifacts/backend/app/routes/chat.py:34-57 | a session opens under a fresh key in both maps; the answer has no messages and no preview |
| Chat.ChatStore.Rename | artifacts/backend/app/routes/chat.py:154-173 | an unknown id is a 404 that changes nothing; otherwise only that session's title and `updated_at` change, and `updated_at` strictly increases |
| Chat.ChatStore.Delete | artifacts/backend/app/routes/chat.py:190-197 | the session and its log leave together, so the two maps keep equal key sets; an unknown id is a 404 |
| Chat.ChatStore.Clear | artifacts/backend/app/routes/chat.py:291-297 | the log becomes empty, and the session stays and is restamped; an unknown id is a 404 |
| Chat.ChatStore.Chat | artifacts/backend/app/routes/chat.py:214-272 | an unknown conversation is a 404 that writes nothing; otherwise the user message is appended, then the reply, then the session is restamped; when the agent fails only the user message (and any session just opened) remains |
| Chat.ChatStore.StartConversation | artifacts/backend/app/routes/chat.py:218-229 | without a conversation id, a fresh session titled after the message holds the exchange |
| Chat.ChatStore.Exchange | artifacts/backend/app/routes/chat.py:233-272 | the log gains the user message and then the reply; the response carries the user message's stamp |
| Chat.ChatStore.Answer | artifacts/backend/app/routes/chat.py:255-266 | the reply is appended, then the session's `updated_at` is set to the following reading |
| Chat.ChatOnlyAppends | artifacts/backend/app/routes/chat.py:242-263 | `chat` never rewrites history: every old log is a prefix of its new one |
| Chat.NewConversation | artifacts/backend/app/routes/chat.py:218-271 | with no conversation id, or an empty one (`if not session_id`), a fresh session is opened and ends up holding exactly the user message and then the reply |
| Sampling.Matching | artifacts/backend/app/tools/chatbot_adapter.py:37 | the matches are a subsequence of the bank, and an entry is included exactly when its lower-cased topic contains the lower-cased query |
| Sampling.SwapRemoveMultiset | artifacts/backend/app/tools/chatbot_adapter.py:40 | one pick leaves exactly the other candidates: the pool minus the picked entry, counted with multiplicity |
| Sampling.Draw | artifacts/backend/app/tools/chatbot_adapter.py:40 | `k` picks give `k` entries |
| Sampling.DrawMultiset | artifacts/backend/app/tools/chatbot_adapter.py:40 | the picks are drawn without replacement: together they form a sub-multiset of the pool |
| Stores.SubMultisetNoDuplicates | artifacts/backend/app/tools/chatbot_adapter.py:40 | entries drawn without replacement from a duplicate-free pool are duplicate-free |
| Sampling.Sample | artifacts/backend/app/tools/chatbot_adapter.py:40 | `random.sample` fails exactly when `k` is negative or above the population size; otherwise it gives `k` distinct positions of the population |
| ChatbotAdapter.BankWellFormed | artifacts/backend/app/tools/chatbot_adapter.py:5-33 | bank ids are unique, and every `correct_index` indexes its options |
| ChatbotAdapter.Pool | artifacts/backend/app/tools/chatbot_adapter.py:38 | the pool is the matches exactly when there are at least 2 of them, otherwise the whole bank; it always has at least 2 distinct entries |
| ChatbotAdapter.GenerateQuiz | artifacts/backend/app/tools/chatbot_adapter.py:36-46 | fails exactly for a negative count; otherwise it echoes the topic and returns `min(n, len(pool))` distinct pool entries, with `num_questions` equal to their number |
| ChatbotAdapter.GeneratedFromBank | artifacts/backend/app/tools/chatbot_adapter.py:40 | every generated question is a bank entry whose answer index is valid |
| ChatbotAdapter.MatchesByTopic | artifacts/backend/app/tools/chatbot_adapter.py:37 | the matches are q1 and q2 when the query occurs in "lists", followed by q3 when it occurs in "higher-order functions" |
| ChatbotAdapter.SingleMatchFallsBack | artifacts/backend/app/tools/chatbot_adapter.py:38 | "Higher" matches only q3, so the pool falls back to the whole bank |
| ChatbotAdapter.TwoMatchesSuffice | artifacts/backend/app/tools/chatbot_adapter.py:37-38 | "Lists" matches q1 and q2, which become the pool |
| ChatbotAdapter.NothingMatchesGeneral | artifacts/backend/app/tools/chatbot_adapter.py:37 | the default topic "General" occurs in no bank topic |
| ChatbotAdapter.DefaultCall | artifacts/backend/app/tools/chatbot_adapter.py:36-46 | `generate_quiz()` with its defaults ("General", 5) falls back to the whole bank and returns all three bank questions |
| QuizEndpoint.Pool | artifacts/backend/app/routes/API_endpoint.py:76 | the pool is the matches exactly when there is at least one, otherwise the whole bank; it is never empty |
| QuizEndpoint.BoundsAtEdges | artifacts/backend/app/routes/API_endpoint.py:9-11 | the default request is within bounds; 1 and 50 questions are accepted, 0 and 51 rejected, and so is an empty topic |
| QuizEndpoint.GenerateQuiz | artifacts/backend/app/routes/API_endpoint.py:69-84 | a request outside the bounds (topic at least 1 character, 1 to 50 questions) is rejected; otherwise it returns `min(n, len(pool))` distinct pool entries, between 1 and 3, and echoes the topic |
| QuizEndpoint.GenerateQuizAsWritten | artifacts/backend/app/routes/API_endpoint.py:78 | as written, every request fails: invalid ones at validation, valid ones with `NameError` |
| QuizEndpoint.AsWrittenNeverAnswers | artifacts/backend/app/routes/API_endpoint.py:78 | every valid request fails as written, and the corrected handler answers it |
| QuizEndpoint.DefaultRequestFails | artifacts/backend/app/routes/API_endpoint.py:9-11 | the all-defaults request ("General", 5) fails as written; once `random` is imported it falls back to the whole bank and answers all three questions |
| QuizEndpoint.MatchesByTopic | artifacts/backend/app/routes/API_endpoint.py:75 | the endpoint's matches, by the same topic rule as the adapter |
| QuizEndpoint.ThresholdsDiffer | artifacts/backend/app/routes/API_endpoint.py:76 | for "Higher" the endpoint's pool is q3 alone, so it answers only q3, while the adapter's pool is the whole bank |

## Left out

- The agent and language-model calls (`app.agent.run`) are not part of this model. `create_quiz` receives what the call produced as a `Generation` value; `chat` receives the reply, or `None` when the call raises.
- JSON decoding and pydantic model construction are left out. A decoded completion is a list of items, each of which either builds a `QuizQuestion` or does not. Field types and response-model validation are not checked.
- `uuid.uuid4()` is a fresh-id parameter. Quiz and session ids are required never to have been issued before. Message ids are taken as given and not required to be unique.
- `datetime.utcnow().isoformat()` is a natural-number clock that every reading advances. Two real readings can be equal, and ISO strings are compared as strings, which agrees with the counter only while the clock is monotone.
- Quizzes.RoundedPercent: does not model binary floating point. The score is rounded half to even from the exact ratio `100 * correct / total`. Python rounds the float `correct / total * 100`, which can differ at exact halves.
- `str.lower()` is modelled for ASCII letters only; other characters are left unchanged.
- `random.sample` is modelled by CPython's small-population algorithm, with the random source as a parameter. The set-based algorithm CPython uses for large populations does not arise with a three-entry bank.
- The `q.get("difficulty", "medium")` default in `list_quizzes` is not modelled. Every stored quiz has a difficulty, so the default is never used.
- The catch-all `except Exception` handlers of the list, get, update, delete, submit and session handlers are not modelled: nothing inside them raises in the model. The one in `create_quiz` is modelled: a failed agent call, a decoded value `enumerate` cannot iterate, or an item that does not build a `QuizQuestion` ends in the generic 500 (`Internal`).
- FastAPI routing, CORS, `main.py`, the prompts, the other route modules, and the frontend are not part of this model.
- Concurrent requests are not modelled. Each operation runs to completion before the next.

## Findings

| source | as written | input that shows it | evidently intended | confidence | as-written member | corrected member |
|---|---|---|---|---|---|---|
| artifacts/backend/app/routes/API_endpoint.py:78 | `random.sample(...)` is called, but the module's imports (lines 1-3) never bring in `random` | any valid request, e.g. `{"topic": "General", "num_questions": 5}`: `NameError`, answered with a 500 | draw the sample as `tools/chatbot_adapter.py` does, after `import random` | high; not executed | QuizEndpoint.GenerateQuizAsWritten | QuizEndpoint.GenerateQuiz |
