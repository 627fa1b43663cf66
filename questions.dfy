/**
  The quiz's fixed question table: three questions, each a prompt and the
  options the user can pick, every option carrying its answer tag.
 */
module QuestionTable {

  datatype AnswerOption = AnswerOption(text: string, value: string)

  datatype Question = Question(prompt: string, options: seq<AnswerOption>)

  const CookingPrompt := "How do you typically feel about cooking at home?"
  const CookingOptions := [
    AnswerOption("Love it, I cook most of my meals.", "eat_pro"),
    AnswerOption("It's okay, I do it sometimes.", "eat_neutral"),
    AnswerOption("I prefer eating out or ready-made meals.", "eat_con")
  ]

  const ActivityPrompt := "How often do you engage in physical activity?"
  const ActivityOptions := [
    AnswerOption("Daily or almost daily.", "live_pro"),
    AnswerOption("A few times a week.", "live_neutral"),
    AnswerOption("Rarely or never.", "live_con")
  ]

  const ChallengePrompt := "What's your biggest challenge when trying to be healthy?"
  const ChallengeOptions := [
    AnswerOption("Finding motivation/consistency.", "challenge_motivation"),
    AnswerOption("Time constraints.", "challenge_time"),
    AnswerOption("Cost of healthy options.", "challenge_cost"),
    AnswerOption("Knowing what to do.", "challenge_knowledge")
  ]

  /** `quizQuestions`, in the order they are asked. */
  const Questions := [
    Question(CookingPrompt, CookingOptions),
    Question(ActivityPrompt, ActivityOptions),
    Question(ChallengePrompt, ChallengeOptions)
  ]

  /** The answer tags question `q` offers. */
  function Tags(q: Question): (r: seq<string>)
    ensures |r| == |q.options|
    ensures forall i :: 0 <= i < |q.options| ==> r[i] == q.options[i].value
  {
    seq(|q.options|, i requires 0 <= i < |q.options| => q.options[i].value)
  }

  /** The tags of the table, question by question. */
  const TagTable := [
    ["eat_pro", "eat_neutral", "eat_con"],
    ["live_pro", "live_neutral", "live_con"],
    ["challenge_motivation", "challenge_time", "challenge_cost", "challenge_knowledge"]
  ]

  /** TagTable lists exactly the tags `quizQuestions` offers. */
  lemma TagTableOfQuestions()
    ensures |TagTable| == |Questions| == 3
    ensures forall i :: 0 <= i < |Questions| ==> TagTable[i] == Tags(Questions[i])
  {
    assert Tags(Questions[0]) == TagTable[0];
    assert Tags(Questions[1]) == TagTable[1];
    assert Tags(Questions[2]) == TagTable[2];
  }

  /** Each tag in `tags` is one that the question at its position offers:
      the answers a user can give by pressing the option buttons in order. */
  predicate Offered(tags: seq<string>) {
    |tags| <= |TagTable| &&
    forall i :: 0 <= i < |tags| ==> tags[i] in TagTable[i]
  }
}
