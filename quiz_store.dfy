/**
 * The quiz session store: one mutable record holding the displayed and the
 * prefetched question, the topic, the per-topic history and the counters,
 * changed only through its transition actions.
 *
 * `Session` and `Apply` are the specification of the actions; the class
 * `Store` holds the fields and implements each action as a method whose
 * postcondition ties the new state to `Apply` on the old one.
 */
module QuizStore {
  import opened Wrappers
  import opened Quiz

  const DefaultTopic: string := "general history"

  /** A snapshot of every field of the store. */
  datatype Session = Session(
    currentQuestion: Option<Question>,
    nextQuestion: Option<Question>,
    answeredCount: nat,
    previousQuestions: seq<string>,
    isLoggedIn: bool,
    currentTopic: string,
    sessionId: string,
    questionCount: nat,
    showAuth: bool)

  /** The store's actions, one constructor per action of the source. */
  datatype Action =
    | SetQuestion(question: Question)
    | SetNextQuestion(question: Question)
    | IncrementAnswered
    | SetLoggedIn(status: bool)
    | SetTopic(topic: string)
    | SetShowAuth(show: bool)
    | AddPreviousQuestion(prompt: string)
    | ClearPreviousQuestions
    | MoveToNextQuestion

  /** The invariant the actions keep: the counter counts the history. */
  predicate Consistent(s: Session) {
    s.questionCount == |s.previousQuestions|
  }

  /** The state the store is created in; `sessionId` is an opaque token generated once. */
  function Initial(sessionId: string): (s: Session)
    ensures Consistent(s)
    ensures s.currentQuestion == None && s.nextQuestion == None
    ensures s.answeredCount == 0 && s.questionCount == 0 && s.previousQuestions == []
    ensures s.currentTopic == DefaultTopic && !s.isLoggedIn && !s.showAuth
    ensures s.sessionId == sessionId
  {
    Session(None, None, 0, [], false, DefaultTopic, sessionId, 0, false)
  }

  /** The effect of one action on the store. */
  function Apply(s: Session, a: Action): Session {
    match a
    case SetQuestion(q) => s.(currentQuestion := Some(q))
    case SetNextQuestion(q) => s.(nextQuestion := Some(q))
    case IncrementAnswered => s.(answeredCount := s.answeredCount + 1)
    case SetLoggedIn(status) => s.(isLoggedIn := status)
    case SetTopic(topic) => s.(currentTopic := topic, questionCount := 0, previousQuestions := [])
    case SetShowAuth(show) => s.(showAuth := show)
    case AddPreviousQuestion(p) =>
      s.(previousQuestions := s.previousQuestions + [p], questionCount := s.questionCount + 1)
    case ClearPreviousQuestions => s.(previousQuestions := [], questionCount := 0)
    case MoveToNextQuestion => s.(currentQuestion := s.nextQuestion, nextQuestion := None)
  }

  /** The state after performing `actions` in order. */
  function Run(s: Session, actions: seq<Action>): Session
    decreases |actions|
  {
    if actions == [] then s else Run(Apply(s, actions[0]), actions[1..])
  }

  /** How many of `actions` are `IncrementAnswered`. */
  function Increments(actions: seq<Action>): nat
    decreases |actions|
  {
    if actions == [] then 0
    else (if actions[0].IncrementAnswered? then 1 else 0) + Increments(actions[1..])
  }

  /** Every action keeps the counter equal to the length of the history. */
  lemma ApplyKeepsConsistent(s: Session, a: Action)
    requires Consistent(s)
    ensures Consistent(Apply(s, a))
  {
  }

  /** The invariant holds after any sequence of actions from a consistent state. */
  lemma {:induction false} RunKeepsConsistent(s: Session, actions: seq<Action>)
    requires Consistent(s)
    ensures Consistent(Run(s, actions))
    decreases |actions|
  {
    if actions != [] {
      ApplyKeepsConsistent(s, actions[0]);
      RunKeepsConsistent(Apply(s, actions[0]), actions[1..]);
    }
  }

  /** Every state reachable from the initial one satisfies the invariant. */
  lemma ReachableIsConsistent(sessionId: string, actions: seq<Action>)
    ensures Consistent(Run(Initial(sessionId), actions))
  {
    RunKeepsConsistent(Initial(sessionId), actions);
  }

  /**
   * `answeredCount` is a lifetime counter: after any actions it has grown by
   * exactly the number of `IncrementAnswered` among them, so no action lowers it.
   */
  lemma {:induction false} AnsweredCountCountsIncrements(s: Session, actions: seq<Action>)
    ensures Run(s, actions).answeredCount == s.answeredCount + Increments(actions)
    ensures Run(s, actions).answeredCount >= s.answeredCount
    decreases |actions|
  {
    if actions != [] {
      AnsweredCountCountsIncrements(Apply(s, actions[0]), actions[1..]);
    }
  }

  /** The session token is fixed for the lifetime of the store. */
  lemma {:induction false} SessionIdFixed(s: Session, actions: seq<Action>)
    ensures Run(s, actions).sessionId == s.sessionId
    decreases |actions|
  {
    if actions != [] {
      SessionIdFixed(Apply(s, actions[0]), actions[1..]);
    }
  }

  /**
   * The handoff: advancing moves the prefetched question into the display
   * and empties the prefetch slot, so advancing twice without refilling it
   * leaves no question displayed.
   */
  lemma MoveTwiceClearsDisplay(s: Session)
    ensures Apply(s, MoveToNextQuestion).currentQuestion == s.nextQuestion
    ensures Apply(s, MoveToNextQuestion).nextQuestion == None
    ensures Apply(Apply(s, MoveToNextQuestion), MoveToNextQuestion).currentQuestion == None
  {
  }

  /** A topic switch resets the per-topic history but not the lifetime counter or the question slots. */
  lemma SetTopicResetsHistory(s: Session, topic: string)
    ensures Apply(s, SetTopic(topic)).questionCount == 0
    ensures Apply(s, SetTopic(topic)).previousQuestions == []
    ensures Apply(s, SetTopic(topic)).currentTopic == topic
    ensures Apply(s, SetTopic(topic)).answeredCount == s.answeredCount
    ensures Apply(s, SetTopic(topic)).currentQuestion == s.currentQuestion
    ensures Apply(s, SetTopic(topic)).nextQuestion == s.nextQuestion
  {
  }

  /** The store itself: the fields of `Session`, updated in place by the actions. */
  class Store {
    var currentQuestion: Option<Question>
    var nextQuestion: Option<Question>
    var answeredCount: nat
    var previousQuestions: seq<string>
    var isLoggedIn: bool
    var currentTopic: string
    const sessionId: string
    var questionCount: nat
    var showAuth: bool

    function State(): Session
      reads this
    {
      Session(currentQuestion, nextQuestion, answeredCount, previousQuestions,
              isLoggedIn, currentTopic, sessionId, questionCount, showAuth)
    }

    ghost predicate Valid()
      reads this
    {
      Consistent(State())
    }

    constructor (sessionId: string)
      ensures Valid()
      ensures State() == Initial(sessionId)
    {
      currentQuestion := None;
      nextQuestion := None;
      answeredCount := 0;
      previousQuestions := [];
      isLoggedIn := false;
      this.sessionId := sessionId;
      showAuth := false;
      questionCount := 0;
      currentTopic := DefaultTopic;
    }

    method SetQuestion(question: Question)
      requires Valid()
      modifies this
      ensures Valid()
      ensures State() == Apply(old(State()), Action.SetQuestion(question))
      ensures State() == old(State()).(currentQuestion := Some(question))
    {
      currentQuestion := Some(question);
    }

    method SetNextQuestion(question: Question)
      requires Valid()
      modifies this
      ensures Valid()
      ensures State() == Apply(old(State()), Action.SetNextQuestion(question))
      ensures State() == old(State()).(nextQuestion := Some(question))
    {
      nextQuestion := Some(question);
    }

    method IncrementAnswered()
      requires Valid()
      modifies this
      ensures Valid()
      ensures State() == Apply(old(State()), Action.IncrementAnswered)
      ensures State() == old(State()).(answeredCount := old(answeredCount) + 1)
    {
      answeredCount := answeredCount + 1;
    }

    method SetLoggedIn(status: bool)
      requires Valid()
      modifies this
      ensures Valid()
      ensures State() == Apply(old(State()), Action.SetLoggedIn(status))
      ensures State() == old(State()).(isLoggedIn := status)
    {
      isLoggedIn := status;
    }

    method SetTopic(topic: string)
      requires Valid()
      modifies this
      ensures Valid()
      ensures State() == Apply(old(State()), Action.SetTopic(topic))
      ensures State() == old(State()).(currentTopic := topic, questionCount := 0, previousQuestions := [])
    {
      currentTopic := topic;
      questionCount := 0;
      previousQuestions := [];
    }

    method SetShowAuth(show: bool)
      requires Valid()
      modifies this
      ensures Valid()
      ensures State() == Apply(old(State()), Action.SetShowAuth(show))
      ensures State() == old(State()).(showAuth := show)
    {
      showAuth := show;
    }

    method AddPreviousQuestion(prompt: string)
      requires Valid()
      modifies this
      ensures Valid()
      ensures State() == Apply(old(State()), Action.AddPreviousQuestion(prompt))
      ensures previousQuestions == old(previousQuestions) + [prompt]
      ensures questionCount == old(questionCount) + 1
      ensures State() == old(State()).(previousQuestions := previousQuestions, questionCount := questionCount)
    {
      previousQuestions := previousQuestions + [prompt];
      questionCount := questionCount + 1;
    }

    method ClearPreviousQuestions()
      requires Valid()
      modifies this
      ensures Valid()
      ensures State() == Apply(old(State()), Action.ClearPreviousQuestions)
      ensures State() == old(State()).(previousQuestions := [], questionCount := 0)
    {
      previousQuestions := [];
      questionCount := 0;
    }

    method MoveToNextQuestion()
      requires Valid()
      modifies this
      ensures Valid()
      ensures State() == Apply(old(State()), Action.MoveToNextQuestion)
      ensures State() == old(State()).(currentQuestion := old(nextQuestion), nextQuestion := None)
    {
      currentQuestion := nextQuestion;
      nextQuestion := None;
    }
  }
}
