# Two-player quiz: session state machine and score store

This project models the core of a two-player ("Nafi" vs "Moya") trivia quiz
page and its score store, and proves properties of the model in Dafny.

- `questions.dfy` (module `Questions`): question records, `filter_quizzes`
  (category then difficulty, each skipped when its value is `"Toutes"`), a
  one-pass reference filter it is proved equal to, the fall-back pool used by a
  new session, and `random.shuffle` as a Fisher–Yates pass whose random draws
  are a parameter.
- `database.dfy` (module `Database`): the `quiz_sessions` and `player_stats`
  tables held in memory by the class `Store`, with `save_session`,
  `update_player_stats` and the three reads. `Store.available` stands for
  `DATABASE_AVAILABLE`: when it is false, saves change nothing and reads are
  empty. The pure functions `Winner`, `Credited` and `Saved` specify the
  writes; `SortNewestFirst` specifies the history order.
- `session.dfy` (module `Session`): the page's session state as the class
  `QuizState` (`initialize_session` as its constructor, `check_answer`,
  `next_question`, `reset_quiz`), and the three buttons of the page body, each
  firing its transition only under the condition under which the page draws it.
  `Guarded()` is the invariant those buttons keep. It says the position stays
  on a question and at most one point is awarded per answered question.

A consequence proved in `NewSessionButton` and `OnlyEmptyBankFinishes`: with
the page's guards, the position never passes the last question of a non-empty
list, because the "next question" button is only offered while the position is
below the last index (app.py:211). So the "quiz finished" branch (app.py:218) is
reached only with an empty bank. There it divides the scores by the list length
(app.py:226), which is zero: the render stops with a ZeroDivisionError before the
"new session" button (app.py:242) is drawn. So the save inside `reset_quiz`
(app.py:84) is never reached from the page, and as written the page never saves
a session: the history and the leaderboard are never filled from it.

## Model

| member | source | states |
|---|---|---|
| `Questions.FilterQuizzes` | app.py:15-21 | with both filters "Toutes" the bank is returned unchanged |
| `Questions.Matching` | app.py:17-20 | reference filter: each question's copies are kept exactly when it matches both filters, every kept element matches, and the order of the input is preserved (subsequence) |
| `Questions.FilterIsMatching` | app.py:15-21 | the two successive comprehensions (category, then difficulty) select exactly what the one-pass reference selects |
| `Questions.FilterKeepsExactlyTheMatches` | app.py:15-21 | the filter result is an order-preserving subsequence of the bank; every element matches; no matching question is dropped (same multiplicity) |
| `Questions.KeepCategoryIsMatching` | app.py:17-18 | the category comprehension equals the reference filter with difficulty "Toutes" |
| `Questions.KeepDifficultyAfterMatching` | app.py:19-20 | the difficulty comprehension applied after the category filter equals the reference filter on both |
| `Questions.MatchingEverything` | app.py:16 | the reference filter with both values "Toutes" keeps the whole bank |
| `Questions.MatchingEmptyIffNoMatch` | app.py:97-98 | the filtered bank is empty exactly when no question of the bank matches both filters (the condition of the fall-back) |
| `Questions.Pool` | app.py:97-98 | the pool is empty exactly when the bank is; when some question matches the filters it is exactly the filtered bank (the one-pass reference), and when none does it is the whole bank |
| `Questions.Shuffle` | app.py:99 | the shuffled list is a permutation of its input, whatever the random draws |
| `Database.Winner` | database.py:64-69 | "Nafi" iff Nafi's score is strictly greater, "Moya" iff Moya's is, "Égalité" iff they are equal |
| `Database.Credited` | database.py:87-97 | one game and the score are added to the player's row (created with zero counters if absent), one win iff the player won; other rows are unchanged; the well-formedness invariant is kept, so games is at least 1 (the divisor of the average) |
| `Database.Saved` | database.py:58-82 | a save appends exactly one record with the given scores, total, winner and quiz type, updates exactly the rows of Nafi and Moya (one more game, score added), leaves every other row alone and keeps the tables well formed |
| `Database.SaveAwardsAtMostOneWin` | database.py:64-82 | in one save only the strictly higher scorer gains a win; on a tie neither does; at most one win is added in total |
| `Database.InsertByDate` | database.py:119 | inserting into a newest-first list keeps it newest first and adds exactly that record |
| `Database.SortNewestFirst` | database.py:119 | the history is ordered by session date, newest first, and is a permutation of the table |
| `Database.Store.constructor` | database.py:47-49 | a store created on an empty database has empty tables and the given availability |
| `Database.Store.UpdatePlayerStats` | database.py:87-100 | the stats table becomes `Credited` of the old one, the sessions table is untouched, and the player's games count is at least 1 |
| `Database.Store.SaveSession` | database.py:58-85 | when available, the tables become `Saved` of the old tables with quiz type defaulting to "standard"; when unavailable, nothing changes |
| `Database.Store.GetPlayerStats` | database.py:102-111 | None when the store is unavailable or the player has no row, otherwise the player's row |
| `Database.Store.GetAllSessions` | database.py:113-122 | empty when unavailable, otherwise every session (as a multiset) ordered newest first |
| `Database.Store.GetLeaderboard` | database.py:124-133 | empty when unavailable, otherwise every stats row exactly once |
| `Session.QuizState.constructor` | app.py:23-53 | first run of `initialize_session`: the bank, a shuffled copy as the working list, position and scores 0, nothing answered, both filters "Toutes"; the guard invariant holds |
| `Session.QuizState.CheckAnswer` | app.py:61-75 | marks the question answered, records answer and player, returns true exactly when the option equals the answer, then adds 1 to Nafi's score for "Nafi" and to Moya's for any other name, and changes no score on a wrong answer |
| `Session.QuizState.NextQuestion` | app.py:77-81 | the position grows by exactly 1, answer/player are cleared, scores and lists are unchanged |
| `Session.QuizState.ResetQuiz` | app.py:83-99 | saves the pre-reset scores and list length exactly when the position is at or past the end (otherwise the store is untouched), then zeroes position and scores, clears the answer, and makes the working list a permutation of the filtered bank, or of the whole bank when the filter is empty |
| `Session.QuizState.AnswerButton` | app.py:172-193 | fires `check_answer` only while a question is shown and unanswered, and otherwise changes nothing; when it fires it records the option and the player, and a correct option earns exactly one point for Nafi (for "Nafi") or Moya (any other name); list, bank and filters are unchanged; keeps the guard invariant |
| `Session.QuizState.NextButton` | app.py:194-216 | advances by one only after an answer and only before the last question, otherwise changes nothing; scores, working list, bank and filters are unchanged; keeps the guard invariant (position stays below the list length) |
| `Session.QuizState.NewSessionButton` | app.py:218-244 | drawn only when the working list is non-empty (an empty list stops the render at app.py:226), otherwise the state is unchanged; keeps the guard invariant; the store is never written; when it fires, position and scores are 0, the answer is cleared, bank and filters are kept and the working list is a permutation of the pool |
| `Session.OnlyEmptyBankFinishes` | app.py:172-219 | under the guard invariant the "finished" branch is reached iff the bank is empty |

## Left out

- Rendering (columns, metrics, balloons, `st.rerun`, sidebar, percentages, win rates): presentation only; of the page body only the conditions that guard the buttons are modelled.
- `load_quizzes`: file and JSON reading; the bank is the constructor's `bank` parameter.
- `random.shuffle`: randomness; the draws are the parameter `draws`, and only "some permutation" is claimed.
- The timer settings (`timer_enabled`, `timer_duration`): set by `initialize_session` but never read in app.py.
- Later runs of `initialize_session` (keys already present): they change nothing, so only the first run is modelled, as the constructor.
- Changing the category/difficulty filters: nothing in app.py assigns them after initialisation, so `QuizState` has no setter; the invariant is stated for any filter values.
- The ZeroDivisionError at app.py:226 when the working list is empty: the model does not represent the crash itself, only its effect that the "new session" button is not drawn (`NewSessionButton` does nothing then).
- Rows already present at start-up: `init_db` creates missing tables and keeps existing rows, but the model's `Store` always starts from an empty database.
- The SQLAlchemy engine, sessions, `init_db`, `get_db`, commits and closes: foreign library and I/O; the tables are in memory.
- `session_date`'s `datetime.utcnow` default: a clock; the timestamp is the parameter `now`.
- The float `average_score`: floating point; only its divisor (`total_games >= 1`) is stated.
- Column defaults of a new `player_stats` row: the model starts a new row at zero counters, which is what the insert-time defaults are meant to give; it does not claim the library guarantees this for an unflushed row.
- Atomicity: the session insert and the two stats updates are sequential steps, not one transaction; failures between them are not modelled.
- Database.Store.GetLeaderboard: the order of the rows is left unspecified, as the query has no ORDER BY.
- Session ids are modelled as 1, 2, 3, … in insertion order (the autoincrement key of an append-only table).
