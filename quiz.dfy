/** The quiz item shared by the store, the fallback bank and the endpoint. */
module Quiz {
  import opened Wrappers

  /** One multiple-choice question; the fun fact and the reading hint are optional. */
  datatype Question = Question(
    question: string,
    options: seq<string>,
    correctAnswer: string,
    explanation: string,
    funFact: Option<string>,
    learnMore: Option<string>)
}
