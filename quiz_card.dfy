/**
 * The question card: its own interface state (the chosen option, whether
 * the explanation, the share dialog and the loading spinner are shown, the
 * rating given, the alerts raised) and the handlers that update it together
 * with the quiz store.
 *
 * `Screen` and the functions over it specify each handler; the class
 * `QuizCard` holds the fields and a reference to the store, and each method
 * ties the new screen to the specification applied to the old one.
 */
module QuizCard {
  import opened Wrappers
  import opened Quiz
  import opened QuizStore

  datatype Rating = ThumbsUp | ThumbsDown

  /** The card's local state. */
  datatype Card = Card(
    selectedAnswer: Option<string>,
    showExplanation: bool,
    loading: bool,
    ratingSubmitted: Option<Rating>,
    showShareQuiz: bool,
    alerts: seq<string>)

  /** What the card sees and changes: the store and its own state. */
  datatype Screen = Screen(session: Session, card: Card)

  /** From this many recorded prompts on, the card stops advancing. */
  const HistoryLimit: nat := 5
  const DiverseTopicsAlert: string := "You might want to try a different topic to get more diverse questions!"
  const ShareSignInAlert: string := "Sign in to share quizzes with friends!"

  const InitialCard: Card := Card(None, false, false, None, false, [])

  /** `handleAnswer(option)`. */
  function Answer(sc: Screen, option: string): Screen {
    Screen(Apply(sc.session, IncrementAnswered),
           sc.card.(selectedAnswer := Some(option), showExplanation := true))
  }

  /** `handleShareClick`. */
  function ShareClick(sc: Screen): Screen {
    if !sc.session.isLoggedIn then
      Screen(Apply(sc.session, SetShowAuth(true)), sc.card.(alerts := sc.card.alerts + [ShareSignInAlert]))
    else
      sc.(card := sc.card.(showShareQuiz := true))
  }

  /** `handleRating(isPositive)`. */
  function Rate(sc: Screen, isPositive: bool): Screen {
    sc.(card := sc.card.(ratingSubmitted := Some(if isPositive then ThumbsUp else ThumbsDown)))
  }

  /**
   * `handleNextQuestion`: the displayed prompt is recorded first; then the
   * count the handler read before recording decides between refusing (with
   * an alert, keeping the question and the selection) and advancing (with
   * the selection, explanation and rating cleared). The spinner is off
   * afterwards in every case.
   */
  function NextQuestion(sc: Screen): Screen {
    match sc.session.currentQuestion
    case None => sc.(card := sc.card.(loading := false))
    case Some(q) =>
      var recorded := Apply(sc.session, AddPreviousQuestion(q.question));
      if sc.session.questionCount >= HistoryLimit then
        Screen(recorded, sc.card.(loading := false, alerts := sc.card.alerts + [DiverseTopicsAlert]))
      else
        Screen(Apply(recorded, MoveToNextQuestion),
               sc.card.(selectedAnswer := None, showExplanation := false, ratingSubmitted := None, loading := false))
  }

  /** The effect run whenever the topic changes. */
  function TopicChanged(sc: Screen): Screen {
    sc.(session := Apply(sc.session, ClearPreviousQuestions))
  }

  /** The share dialog's `onClose`. */
  function CloseShare(sc: Screen): Screen {
    sc.(card := sc.card.(showShareQuiz := false))
  }

  /** `n` clicks on "Next Question". */
  function Clicks(sc: Screen, n: nat): Screen
    decreases n
  {
    if n == 0 then sc else Clicks(NextQuestion(sc), n - 1)
  }

  /** `n` copies of `x`. */
  function Repeat(x: string, n: nat): (r: seq<string>)
    ensures |r| == n && forall k :: 0 <= k < n ==> r[k] == x
  {
    if n == 0 then [] else Repeat(x, n - 1) + [x]
  }

  /** Answering records the choice, opens the explanation and counts one more answer. */
  lemma AnswerCountsOnce(sc: Screen, option: string)
    ensures Answer(sc, option).session.answeredCount == sc.session.answeredCount + 1
    ensures Answer(sc, option).card.selectedAnswer == Some(option)
    ensures Answer(sc, option).card.showExplanation
    ensures Answer(sc, option).session.(answeredCount := sc.session.answeredCount) == sc.session
  {
  }

  /** Logged out, sharing asks for sign-in and opens nothing; logged in, it opens the dialog and touches nothing else. */
  lemma ShareClickGatedBySignIn(sc: Screen)
    ensures !sc.session.isLoggedIn ==>
              && ShareClick(sc).session.showAuth
              && ShareClick(sc).card.showShareQuiz == sc.card.showShareQuiz
              && ShareClick(sc).card.alerts == sc.card.alerts + [ShareSignInAlert]
    ensures sc.session.isLoggedIn ==>
              ShareClick(sc).session == sc.session && ShareClick(sc) == sc.(card := sc.card.(showShareQuiz := true))
  {
  }

  /** The card's handlers keep the store's invariant. */
  lemma HandlersKeepConsistent(sc: Screen, option: string, isPositive: bool)
    requires Consistent(sc.session)
    ensures Consistent(Answer(sc, option).session)
    ensures Consistent(ShareClick(sc).session)
    ensures Consistent(Rate(sc, isPositive).session)
    ensures Consistent(NextQuestion(sc).session)
    ensures Consistent(TopicChanged(sc).session)
    ensures Consistent(CloseShare(sc).session)
  {
    if sc.session.currentQuestion.Some? {
      var recorded := Apply(sc.session, AddPreviousQuestion(sc.session.currentQuestion.value.question));
      ApplyKeepsConsistent(sc.session, AddPreviousQuestion(sc.session.currentQuestion.value.question));
      ApplyKeepsConsistent(recorded, MoveToNextQuestion);
    }
  }

  /** With a question displayed, every click records its prompt, whether or not the card then advances. */
  lemma NextQuestionRecordsPrompt(sc: Screen)
    requires sc.session.currentQuestion.Some?
    ensures NextQuestion(sc).session.previousQuestions
            == sc.session.previousQuestions + [sc.session.currentQuestion.value.question]
    ensures NextQuestion(sc).session.questionCount == sc.session.questionCount + 1
    ensures !NextQuestion(sc).card.loading
  {
  }

  /** Below the limit the card advances to the prefetched question and clears the answer state. */
  lemma NextQuestionAdvancesBelowLimit(sc: Screen)
    requires sc.session.currentQuestion.Some? && sc.session.questionCount < HistoryLimit
    ensures NextQuestion(sc).session.currentQuestion == sc.session.nextQuestion
    ensures NextQuestion(sc).session.nextQuestion == None
    ensures NextQuestion(sc).card == sc.card.(selectedAnswer := None, showExplanation := false,
                                             ratingSubmitted := None, loading := false)
  {
  }

  /** Without a question only the spinner is turned off. */
  lemma NextQuestionWithoutQuestion(sc: Screen)
    requires sc.session.currentQuestion.None?
    ensures NextQuestion(sc) == sc.(card := sc.card.(loading := false))
  {
  }

  /**
   * At the limit the card never advances again: any number of further
   * clicks keeps the displayed question, the prefetched one and the
   * selection, and each click records the same prompt once more and raises
   * one more alert.
   */
  lemma {:induction false} RefusedClicks(sc: Screen, n: nat)
    requires sc.session.currentQuestion.Some? && sc.session.questionCount >= HistoryLimit
    ensures Clicks(sc, n).session.currentQuestion == sc.session.currentQuestion
    ensures Clicks(sc, n).session.nextQuestion == sc.session.nextQuestion
    ensures Clicks(sc, n).card.selectedAnswer == sc.card.selectedAnswer
    ensures Clicks(sc, n).session.previousQuestions
            == sc.session.previousQuestions + Repeat(sc.session.currentQuestion.value.question, n)
    ensures Clicks(sc, n).card.alerts == sc.card.alerts + Repeat(DiverseTopicsAlert, n)
    decreases n
  {
    if n > 0 {
      var next := NextQuestion(sc);
      RefusedClicks(next, n - 1);
      var prompt := sc.session.currentQuestion.value.question;
      assert Repeat(prompt, n) == [prompt] + Repeat(prompt, n - 1) by {
        RepeatCons(prompt, n);
      }
      assert Repeat(DiverseTopicsAlert, n) == [DiverseTopicsAlert] + Repeat(DiverseTopicsAlert, n - 1) by {
        RepeatCons(DiverseTopicsAlert, n);
      }
    }
  }

  lemma {:induction false} RepeatCons(x: string, n: nat)
    requires n > 0
    ensures Repeat(x, n) == [x] + Repeat(x, n - 1)
    decreases n
  {
    if n > 1 {
      RepeatCons(x, n - 1);
    }
  }

  /** The topic-change effect undoes nothing a topic switch has not already reset. */
  lemma TopicEffectAfterSetTopic(sc: Screen, topic: string)
    ensures TopicChanged(sc.(session := Apply(sc.session, SetTopic(topic)))).session
            == Apply(sc.session, SetTopic(topic))
    ensures TopicChanged(sc).session.previousQuestions == [] && TopicChanged(sc).session.questionCount == 0
  {
  }

  /** The card component, holding its own state and a reference to the shared store. */
  class QuizCard {
    const store: Store
    var selectedAnswer: Option<string>
    var showExplanation: bool
    var loading: bool
    var ratingSubmitted: Option<Rating>
    var showShareQuiz: bool
    var alerts: seq<string>

    function CardState(): Card
      reads this
    {
      Card(selectedAnswer, showExplanation, loading, ratingSubmitted, showShareQuiz, alerts)
    }

    function State(): Screen
      reads this, store
    {
      Screen(store.State(), CardState())
    }

    ghost predicate Valid()
      reads this, store
    {
      store.Valid()
    }

    constructor (store: Store)
      requires store.Valid()
      ensures Valid() && this.store == store
      ensures CardState() == InitialCard
    {
      this.store := store;
      selectedAnswer := None;
      showExplanation := false;
      loading := false;
      ratingSubmitted := None;
      showShareQuiz := false;
      alerts := [];
    }

    method HandleAnswer(option: string)
      requires Valid()
      modifies this, store
      ensures Valid()
      ensures State() == Answer(old(State()), option)
    {
      selectedAnswer := Some(option);
      showExplanation := true;
      store.IncrementAnswered();
    }

    method HandleShareClick()
      requires Valid()
      modifies this, store
      ensures Valid()
      ensures State() == ShareClick(old(State()))
    {
      if !store.isLoggedIn {
        alerts := alerts + [ShareSignInAlert];
        store.SetShowAuth(true);
        return;
      }
      showShareQuiz := true;
    }

    method HandleRating(isPositive: bool)
      requires Valid()
      modifies this
      ensures Valid()
      ensures State() == Rate(old(State()), isPositive)
    {
      ratingSubmitted := Some(if isPositive then ThumbsUp else ThumbsDown);
    }

    method HandleNextQuestion()
      requires Valid()
      modifies this, store
      ensures Valid()
      ensures State() == NextQuestion(old(State()))
    {
      loading := true;
      // The count as rendered, read before the prompt is recorded.
      var questionCount := store.questionCount;
      if store.currentQuestion.Some? {
        store.AddPreviousQuestion(store.currentQuestion.value.question);
        if questionCount >= HistoryLimit {
          alerts := alerts + [DiverseTopicsAlert];
          loading := false;
          return;
        }
        store.MoveToNextQuestion();
        selectedAnswer := None;
        showExplanation := false;
        ratingSubmitted := None;
      }
      loading := false;
    }

    method OnTopicChange()
      requires Valid()
      modifies store
      ensures Valid()
      ensures State() == TopicChanged(old(State()))
    {
      store.ClearPreviousQuestions();
    }

    method CloseShareQuiz()
      requires Valid()
      modifies this
      ensures Valid()
      ensures State() == CloseShare(old(State()))
    {
      showShareQuiz := false;
    }
  }
}
