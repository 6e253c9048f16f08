/**
 * The quiz page of app.py: the session state (`st.session_state`) as a class,
 * its transitions `check_answer`, `next_question` and `reset_quiz`, and the
 * three buttons of the page body, each of which fires its transition only
 * under the condition the page renders it under.
 */
module Session {
  import opened Wrappers
  import opened Questions
  import opened Database

  class QuizState {
    const store: Store
    var allQuizzes: seq<Question>
    var quizzes: seq<Question>
    var currentQuestion: nat
    var nafiScore: nat
    var moyaScore: nat
    var answered: bool
    var lastAnswer: Option<string>
    var lastPlayer: Option<string>
    var selectedCategory: string
    var selectedDifficulty: string

    /** What the page guards keep true between interactions: the position
        stays on a question (it can only be 0 on an empty list), the working
        list is a permutation of the pool the filters select, at most one
        point has been awarded per question answered so far, and the last
        answer and player are recorded exactly while the question is answered. */
    ghost predicate Guarded()
      reads this
    {
      && (currentQuestion < |quizzes| || (currentQuestion == 0 && quizzes == []))
      && multiset(quizzes) == multiset(Pool(allQuizzes, selectedCategory, selectedDifficulty))
      && (answered ==> currentQuestion < |quizzes|)
      && nafiScore + moyaScore <= currentQuestion + (if answered then 1 else 0)
      && (answered <==> lastAnswer.Some?)
      && (answered <==> lastPlayer.Some?)
    }

    /** `initialize_session` on the first run: the whole bank, shuffled, with
        every other key at its default. */
    constructor (bank: seq<Question>, store: Store, draws: seq<nat>)
      ensures this.store == store && allQuizzes == bank
      ensures multiset(quizzes) == multiset(bank)
      ensures currentQuestion == 0 && nafiScore == 0 && moyaScore == 0
      ensures !answered && lastAnswer == None && lastPlayer == None
      ensures selectedCategory == ALL && selectedDifficulty == ALL
      ensures Guarded()
    {
      var shuffled := Shuffle(bank, draws);
      this.store := store;
      allQuizzes := bank;
      quizzes := shuffled;
      currentQuestion := 0;
      nafiScore := 0;
      moyaScore := 0;
      answered := false;
      lastAnswer := None;
      lastPlayer := None;
      selectedCategory := ALL;
      selectedDifficulty := ALL;
    }

    /** `check_answer`: record the answer and, when it is right, give one
        point to Nafi, or to Moya for any other player name. */
    method CheckAnswer(selectedOption: string, player: string) returns (correct: bool)
      requires currentQuestion < |quizzes|
      modifies this
      ensures correct <==> selectedOption == old(quizzes[currentQuestion]).answer
      ensures answered && lastAnswer == Some(selectedOption) && lastPlayer == Some(player)
      ensures nafiScore == old(nafiScore) + (if correct && player == NAFI then 1 else 0)
      ensures moyaScore == old(moyaScore) + (if correct && player != NAFI then 1 else 0)
      ensures quizzes == old(quizzes) && allQuizzes == old(allQuizzes)
      ensures currentQuestion == old(currentQuestion)
      ensures selectedCategory == old(selectedCategory) && selectedDifficulty == old(selectedDifficulty)
    {
      var currentQuiz := quizzes[currentQuestion];
      var correctAnswer := currentQuiz.answer;
      answered := true;
      lastAnswer := Some(selectedOption);
      lastPlayer := Some(player);
      if selectedOption == correctAnswer {
        if player == NAFI {
          nafiScore := nafiScore + 1;
        } else {
          moyaScore := moyaScore + 1;
        }
        return true;
      }
      return false;
    }

    /** `next_question`: move one question on and clear the answer. */
    method NextQuestion()
      modifies this
      ensures currentQuestion == old(currentQuestion) + 1
      ensures !answered && lastAnswer == None && lastPlayer == None
      ensures nafiScore == old(nafiScore) && moyaScore == old(moyaScore)
      ensures quizzes == old(quizzes) && allQuizzes == old(allQuizzes)
      ensures selectedCategory == old(selectedCategory) && selectedDifficulty == old(selectedDifficulty)
    {
      currentQuestion := currentQuestion + 1;
      answered := false;
      lastAnswer := None;
      lastPlayer := None;
    }

    /** `reset_quiz`: save the session when the position has passed the last
        question, clear the state, and draw a new working list from the pool. */
    method ResetQuiz(draws: seq<nat>, now: int)
      requires store.Valid()
      modifies this, store
      ensures store.Valid()
      ensures old(currentQuestion) >= old(|quizzes|) && store.available ==>
        store.Snapshot() == Saved(old(store.Snapshot()), old(nafiScore), old(moyaScore), old(|quizzes|), STANDARD, now)
      ensures !(old(currentQuestion) >= old(|quizzes|) && store.available) ==>
        store.Snapshot() == old(store.Snapshot())
      ensures currentQuestion == 0 && nafiScore == 0 && moyaScore == 0
      ensures !answered && lastAnswer == None && lastPlayer == None
      ensures allQuizzes == old(allQuizzes)
      ensures selectedCategory == old(selectedCategory) && selectedDifficulty == old(selectedDifficulty)
      ensures multiset(quizzes) == multiset(Pool(allQuizzes, selectedCategory, selectedDifficulty))
    {
      if currentQuestion >= |quizzes| {
        store.SaveSession(nafiScore, moyaScore, |quizzes|, now);
      }
      currentQuestion := 0;
      nafiScore := 0;
      moyaScore := 0;
      answered := false;
      lastAnswer := None;
      lastPlayer := None;
      var filtered := FilterQuizzes(allQuizzes, selectedCategory, selectedDifficulty);
      quizzes := Shuffle(if filtered != [] then filtered else allQuizzes, draws);
    }

    /** A player's button beside option `optionIndex`. The page offers these
        only while a question is shown and not yet answered. */
    method AnswerButton(optionIndex: int, player: string)
      requires Guarded()
      modifies this
      ensures Guarded()
      ensures var shown := old(currentQuestion < |quizzes| && !answered
                               && 0 <= optionIndex < |quizzes[currentQuestion].options|);
        && (shown ==> answered && lastPlayer == Some(player)
                      && lastAnswer == Some(old(quizzes[currentQuestion].options[optionIndex])))
        && (!shown ==> unchanged(this))
      ensures var correct := old(currentQuestion < |quizzes| && !answered
                                 && 0 <= optionIndex < |quizzes[currentQuestion].options|
                                 && quizzes[currentQuestion].options[optionIndex] == quizzes[currentQuestion].answer);
        && nafiScore == old(nafiScore) + (if correct && player == NAFI then 1 else 0)
        && moyaScore == old(moyaScore) + (if correct && player != NAFI then 1 else 0)
      ensures currentQuestion == old(currentQuestion) && quizzes == old(quizzes) && allQuizzes == old(allQuizzes)
      ensures selectedCategory == old(selectedCategory) && selectedDifficulty == old(selectedDifficulty)
    {
      if currentQuestion < |quizzes| && !answered {
        var options := quizzes[currentQuestion].options;
        if 0 <= optionIndex < |options| {
          var _ := CheckAnswer(options[optionIndex], player);
        }
      }
    }

    /** The "next question" button: shown once the question is answered and
        only while it is not the last one. */
    method NextButton()
      requires Guarded()
      modifies this
      ensures Guarded()
      ensures var shown := old(currentQuestion < |quizzes| && answered && currentQuestion < |quizzes| - 1);
        && (shown ==> currentQuestion == old(currentQuestion) + 1 && !answered)
        && (!shown ==> unchanged(this))
      ensures nafiScore == old(nafiScore) && moyaScore == old(moyaScore)
      ensures quizzes == old(quizzes) && allQuizzes == old(allQuizzes)
      ensures selectedCategory == old(selectedCategory) && selectedDifficulty == old(selectedDifficulty)
    {
      if currentQuestion < |quizzes| && answered {
        if currentQuestion < |quizzes| - 1 {
          NextQuestion();
        }
      }
    }

    /** The "new session" button. It is drawn only after a question has been
        shown: with an empty working list the page takes the "finished"
        branch, whose score percentages divide by the list length (zero), so
        the render stops before the button. Under the guards the position
        never passes the last question, so the save inside `reset_quiz` never
        fires and the store is never written from the page. */
    method NewSessionButton(draws: seq<nat>, now: int)
      requires Guarded() && store.Valid()
      modifies this, store
      ensures Guarded() && store.Valid()
      ensures store.Snapshot() == old(store.Snapshot())
      ensures old(quizzes) == [] ==> unchanged(this)
      ensures old(quizzes) != [] ==>
        && currentQuestion == 0 && nafiScore == 0 && moyaScore == 0
        && !answered && lastAnswer == None && lastPlayer == None
        && multiset(quizzes) == multiset(Pool(allQuizzes, selectedCategory, selectedDifficulty))
      ensures allQuizzes == old(allQuizzes)
      ensures selectedCategory == old(selectedCategory) && selectedDifficulty == old(selectedDifficulty)
    {
      if quizzes != [] {
        ResetQuiz(draws, now);
      }
    }
  }

  /** Under the guards a non-empty bank always has a question on screen: the
      "quiz finished" branch of the page is reached only with an empty bank. */
  lemma OnlyEmptyBankFinishes(s: QuizState)
    requires s.Guarded()
    ensures s.currentQuestion >= |s.quizzes| <==> s.allQuizzes == []
  {
  }
}
