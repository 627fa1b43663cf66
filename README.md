# Wellness quiz — a Dafny model

The app's home page has a short wellness quiz with three questions:

- how the user feels about cooking;
- how often they are active;
- what their biggest challenge is.

Each option button carries an answer tag such as `eat_pro`, `live_neutral` or `challenge_time`. One button press:

- appends the tag to the answer list;
- advances to the next question;
- on the last question, classifies the answers into one of four wellness-type messages, which the page then shows instead of the questions.

A reset returns the quiz to its first question.

The model has four modules:

- `Tags` (`tags.dfy`): JavaScript's `startsWith` and `split('_')` on tag strings, and the "second field" of a tag (`answer.split('_')[1]`). Split is proved lossless (`SplitJoin`), and the second field of a `challenge_…` tag is characterised.
- `Scoring` (`scoring.dfy`) covers `determineWellnessType`:
  - the per-answer update of the eat score, live score and challenge focus (`Apply`), folded over the answers (`Score`);
  - the four-way message cascade (`Message`, `Classify`);
  - the source's loop, as the method `DetermineWellnessType`, proved equal to `Classify`.
- `QuestionTable` (`questions.dfy`): `quizQuestions` as data, with its prompts, option texts and tags. `TagTable` is the tag-only view of it.
- `Quiz` (`quiz.dfy`) covers the quiz state and its handlers:
  - the three state variables (`quizStep`, `quizAnswers`, `wellnessType`) as the value `Session` and as the fields of the class `QuizEngine`;
  - the methods `HandleAnswer` and `Reset`, which update those fields in place;
  - the pure transition `Submit` that `HandleAnswer` is proved to implement;
  - the session invariant `Valid`;
  - the view the page renders (`ViewOf`, the `!wellnessType` guard);
  - facts about the shipped question table.

With the shipped table, each score comes from a single question and so never exceeds 2. Both thresholds are 3. So every completed run ends in the "Wellness Explorer!" message naming the chosen challenge (`ShippedRunEndsInExplorer`). The Champion, Enthusiast and Mover branches stay reachable for answer lists built differently, for example by repeating a question. `MessageByThresholds` covers all four branches.

## Model

| member | source | states |
|---|---|---|
| Scoring.DetermineWellnessType | App.jsx:281-309 | The loop over the answers plus the cascade returns exactly `Classify(answers)`. The loop invariant keeps the three accumulators equal to the fold `Score` over the answers seen so far. |
| Scoring.ScoreStep | App.jsx:286-296 | Scoring one more answer is applying that answer's update to the score of the answers before it, as the `forEach` does. |
| Scoring.EatAnswer | App.jsx:287-289 | For an `eat_` tag, the eat score rises by 2 iff the tag is `eat_pro`, by 1 iff it is `eat_neutral`, and by 0 iff it is neither. The live score and focus are unchanged. |
| Scoring.LiveAnswer | App.jsx:290-292 | For a `live_` tag, the live score rises by 2 iff `live_pro`, by 1 iff `live_neutral`, and by 0 otherwise. The eat score and focus are unchanged. |
| Scoring.ChallengeAnswer | App.jsx:293-295 | A `challenge_` tag leaves both scores unchanged. It sets the focus to the text after the first underscore, up to the next underscore or the end, which is what `split('_')[1]` yields. |
| Scoring.UnrecognisedIgnored | App.jsx:286-296 | An answer matching none of the three prefixes can be removed from anywhere in the list without changing the score. |
| Scoring.EatScoreCounts | App.jsx:287-289 | The eat score is twice the number of `eat_pro` answers plus the number of `eat_neutral` answers. |
| Scoring.LiveScoreCounts | App.jsx:290-292 | The live score is twice the number of `live_pro` answers plus the number of `live_neutral` answers. |
| Scoring.ScoresIgnoreOrder | App.jsx:286-296 | Two answer lists that are permutations of each other have the same eat and live scores. |
| Scoring.FocusWithoutChallenge | App.jsx:284-295 | With no `challenge_` answer the focus keeps its initial value `''`. |
| Scoring.FocusOfLastChallenge | App.jsx:293-295 | The focus is the second field of the last `challenge_` answer. Later challenge answers overwrite earlier ones. |
| Scoring.FocusText | App.jsx:302-306 | `challengeFocus \|\| 'your biggest challenge'` is never empty. It is the focus when there is one, the fallback phrase otherwise. |
| Scoring.MessageByThresholds | App.jsx:298-307 | Four iffs between message and scores: Champion iff both scores are at least 3; Enthusiast iff only eat is; Mover iff only live is; Explorer iff neither is. |
| Scoring.MessageMentionsFocus | App.jsx:302-306 | Every message except Champion contains the focus text, or the fallback phrase when there is no focus. |
| Scoring.FallbackMessage | App.jsx:306 | With no focus and both scores below 3, the message is the Explorer message naming "your biggest challenge". |
| Scoring.BareChallengeField | App.jsx:294 | The tag `challenge_` has an empty second field, so it counts as "no focus". |
| Scoring.Classify | App.jsx:298-308 | The wellness type of any answer list is a non-empty string, so a finished quiz always leaves the `!wellnessType` guard. |
| Tags.SplitJoin | App.jsx:294 | Joining the pieces of `split(sep)` with `sep` gives back the string. |
| Tags.SplitPiecesFree | App.jsx:294 | No piece of `split(sep)` contains `sep`. |
| Tags.SplitAfterHead | App.jsx:294 | Splitting `head + sep + tail`, with `head` free of `sep`, gives `head` followed by the pieces of `tail`. |
| Tags.FirstPiece | App.jsx:294 | The first piece of a split is the longest separator-free prefix. |
| Tags.SecondFieldAfterPrefix | App.jsx:294 | For `p + "_" + rest` with `p` free of underscores, `split('_')[1]` is the longest underscore-free prefix of `rest`. |
| Tags.SecondFieldWhole | App.jsx:294 | If `rest` has no underscore either, `split('_')[1]` is all of `rest`. |
| QuestionTable.TagTableOfQuestions | App.jsx:240-266 | There are three questions, and `TagTable` lists exactly the option values of each. |
| Quiz.QuizEngine.constructor | App.jsx:46-48 | The initial state is step 0, no answers, and an empty wellness type, and it satisfies the session invariant. |
| Quiz.QuizEngine.HandleAnswer | App.jsx:269-278 | The new state is `Submit(old state, tag)`: the tag is appended; the step advances before the last question; on the last question the wellness type becomes the classification of the new answer list. The session invariant is preserved. |
| Quiz.QuizEngine.Reset | App.jsx:312-316 | The state is back to the initial one, whatever it was, so the session invariant holds again. |
| Quiz.SubmitKeepsValid | App.jsx:269-278 | From a valid state, one submission appends exactly the tag. Before the last question it advances the step and shows no result. On the last question it keeps the step and sets a non-empty result equal to the classification. |
| Quiz.FeedKeepsValid | App.jsx:269-278 | Any sequence of submissions keeps the session invariant, and the answer list grows by exactly the submitted tags. |
| Quiz.RunFromStart | App.jsx:269-278 | From the initial state: after k < 3 answers the state is (k, answers, no result). After 3 answers it is (2, answers, classification). A result is shown iff all 3 answers are in. |
| Quiz.RunViews | App.jsx:765-781 | The page shows question k after k answers and the classification once all three answers are in. |
| Quiz.Retake | App.jsx:269-316 | After any earlier answers, a reset and three new answers, the result is the classification of the new answers alone. |
| Quiz.CookingTag | App.jsx:244-246 | Every option of the cooking question is an `eat_` tag, and `eat_con` is the only one worth no points. |
| Quiz.ActivityTag | App.jsx:252-254 | Every option of the activity question is a `live_` tag and not an `eat_` tag. |
| Quiz.ChallengeTag | App.jsx:260-263 | Every option of the challenge question is a `challenge_` tag and neither an `eat_` nor a `live_` tag. |
| Quiz.ChallengeOption | App.jsx:260-263 | Every option of the challenge question is `challenge_` followed by one of motivation, time, cost, knowledge. |
| Quiz.ChallengeFocus | App.jsx:294 | For each challenge variant `w`, the second field of `challenge_` + `w` is `w`, and it is non-empty. |
| Quiz.ShippedScoresAtMostTwo | App.jsx:240-296 | For answers taken from the shipped options in question order, neither score exceeds 2. |
| Quiz.ShippedScore | App.jsx:240-296 | For a full run over the shipped options, the score is the points of the first answer, the points of the second, and the variant of the third. |
| Quiz.ShippedFocus | App.jsx:258-295 | For a full run over the shipped options, the focus is the chosen challenge variant, which is non-empty. |
| Quiz.ShippedRunEndsInExplorer | App.jsx:240-309 | Every full run over the shipped options ends in the Explorer message naming the chosen challenge. |
| Quiz.ProCookShortOfTime | App.jsx:240-309 | Answers `eat_pro`, `live_con` and `challenge_time` score (2, 0, "time") and give the Explorer message naming "time". |
| Quiz.NeutralShortOfMotivation | App.jsx:240-309 | Answers `eat_neutral`, `live_neutral` and `challenge_motivation` score (1, 1, "motivation") and give the Explorer message naming "motivation". |

## Left out

- The rest of the page is not part of this model: the recipe, ingredient-swap and mindfulness generators with their network calls, the BMI calculator, navigation, the message modal, and all JSX markup except the quiz's `!wellnessType` guard. The serverless functions are not part of it either.
- React state updates are modelled as applied at once, in order. The source's `setQuizAnswers`/`setQuizStep` batching and re-rendering are not modelled. In the source, `handleQuizAnswer` passes the freshly built answer list to `determineWellnessType`, so reading stale state does not arise.
- Quiz.QuizEngine.HandleAnswer: it accepts any tag string, as the source does. Only the buttons restrict tags to the shipped options, and that restriction is the `Offered` predicate used by the shipped-table lemmas.
- Tags.SecondField: `split('_')[1]` is `undefined` in JavaScript when the tag has no underscore. The model gives `""`, which behaves the same under `challengeFocus || …`, the only place the value is read.
- Quiz.N: the question count is the constant 3, not `quizQuestions.length` computed from the table. `QuestionTable.TagTableOfQuestions` proves the table has exactly 3 questions.
- Pressing a button while the result is showing cannot happen in the page, because the buttons are not rendered then. The model's `Submit` still defines it, following `handleQuizAnswer` as written: the answer is appended and the result is recomputed.
