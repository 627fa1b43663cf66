/**
  The quiz's progression: which question is showing, the tags chosen so far
  and the wellness type once the last question is answered. `Session` is
  the value of the three state variables; `QuizEngine` holds them as fields
  and updates them in place the way `handleQuizAnswer` and `resetQuiz` do.
 */
module Quiz {
  import opened Tags
  import opened Scoring
  import opened QuestionTable

  /** Number of questions. */
  const N := 3

  /** `quizStep`, `quizAnswers` and `wellnessType`; the empty wellness type
      means the quiz is not finished. */
  datatype Session = Session(step: nat, answers: seq<string>, wellnessType: string)

  /** The state on first render and after a reset. */
  const Initial := Session(0, [], "")

  /** One press of an option button: the tag is appended; before the last
      question the step advances, on it the wellness type is computed from
      the extended answer list. */
  function Submit(s: Session, tag: string): Session {
    var answers := s.answers + [tag];
    if s.step < N - 1 then s.(step := s.step + 1, answers := answers)
    else s.(answers := answers, wellnessType := Classify(answers))
  }

  /** The session after submitting `tags` in order. */
  function Feed(s: Session, tags: seq<string>): Session
    decreases |tags|
  {
    if |tags| == 0 then s else Submit(Feed(s, tags[..|tags| - 1]), tags[|tags| - 1])
  }

  /** The session invariant: the step always names a question; while no
      result is shown, one answer has been given per question passed; once a
      result is shown, the step stays on the last question and the result is
      the classification of the answers. */
  predicate Valid(s: Session) {
    && s.step < N
    && (s.wellnessType == "" ==> |s.answers| == s.step)
    && (s.wellnessType != "" ==> s.step == N - 1 && |s.answers| >= N && s.wellnessType == Classify(s.answers))
  }

  /** What the quiz section renders: the current question while the
      wellness type is empty, the result otherwise. */
  datatype View = Asking(question: Question) | Showing(result: string)

  function ViewOf(s: Session): View
    requires s.step < N
  {
    if s.wellnessType == "" then Asking(Questions[s.step]) else Showing(s.wellnessType)
  }

  /** The quiz state held by the page, changed in place by its handlers. */
  class QuizEngine {
    var step: nat
    var answers: seq<string>
    var wellnessType: string

    function State(): Session
      reads this
    {
      Session(step, answers, wellnessType)
    }

    constructor ()
      ensures State() == Initial
      ensures Valid(State())
    {
      step, answers, wellnessType := 0, [], "";
    }

    /** `handleQuizAnswer`. */
    method HandleAnswer(tag: string)
      modifies this
      ensures State() == Submit(old(State()), tag)
      ensures old(Valid(State())) ==> Valid(State())
    {
      ghost var before := State();
      var newAnswers := answers + [tag];
      answers := newAnswers;
      if step < N - 1 {
        step := step + 1;
      } else {
        wellnessType := DetermineWellnessType(newAnswers);
      }
      if Valid(before) {
        SubmitKeepsValid(before, tag);
      }
    }

    /** `resetQuiz`. */
    method Reset()
      modifies this
      ensures State() == Initial
      ensures Valid(State())
    {
      step := 0;
      answers := [];
      wellnessType := "";
    }
  }

  // ---------------------------------------------------------------------
  // Properties of the progression

  /** One submission from a valid state: exactly one tag is appended; before
      the last question the step advances and no result appears; on the last
      question the step stays and the result is the classification of the
      extended answer list. */
  lemma SubmitKeepsValid(s: Session, tag: string)
    requires Valid(s)
    ensures var r := Submit(s, tag);
      && Valid(r)
      && r.answers == s.answers + [tag]
      && (s.step < N - 1 ==> r.step == s.step + 1 && r.wellnessType == s.wellnessType)
      && (s.step == N - 1 ==> r.step == s.step && r.wellnessType == Classify(s.answers + [tag]) && r.wellnessType != "")
  {
  }

  /** Any sequence of submissions keeps the invariant. */
  lemma {:induction false} FeedKeepsValid(s: Session, tags: seq<string>)
    requires Valid(s)
    ensures Valid(Feed(s, tags))
    ensures Feed(s, tags).answers == s.answers + tags
    decreases |tags|
  {
    if |tags| > 0 {
      var init := tags[..|tags| - 1];
      FeedKeepsValid(s, init);
      SubmitKeepsValid(Feed(s, init), tags[|tags| - 1]);
      assert init + [tags[|tags| - 1]] == tags;
    }
  }

  /** From the initial state: after k < N answers the step is k, the answers
      are exactly those given and there is no result; after N answers the
      step stays on the last question and the result is their
      classification, never empty. */
  lemma {:induction false} RunFromStart(tags: seq<string>)
    requires |tags| <= N
    ensures |tags| < N ==> Feed(Initial, tags) == Session(|tags|, tags, "")
    ensures |tags| == N ==> Feed(Initial, tags) == Session(N - 1, tags, Classify(tags))
    ensures Feed(Initial, tags).wellnessType != "" <==> |tags| == N
    decreases |tags|
  {
    if |tags| > 0 {
      var init, last := tags[..|tags| - 1], tags[|tags| - 1];
      RunFromStart(init);
      var prev := Feed(Initial, init);
      assert prev == Session(|init|, init, "");
      assert init + [last] == tags;
      assert Feed(Initial, tags) == Submit(prev, last);
      if |tags| < N {
        assert Submit(prev, last) == Session(|tags|, tags, "");
      } else {
        assert Submit(prev, last) == Session(N - 1, tags, Classify(tags));
      }
    }
  }

  /** What the page shows along a run: question k after k answers, then the
      result once all N are in. */
  lemma RunViews(tags: seq<string>)
    requires |tags| <= N
    ensures Feed(Initial, tags).step < N
    ensures |tags| < N ==> ViewOf(Feed(Initial, tags)) == Asking(Questions[|tags|])
    ensures |tags| == N ==> ViewOf(Feed(Initial, tags)) == Showing(Classify(tags))
  {
    RunFromStart(tags);
  }

  /** A retake: whatever was answered before, after a reset and N new
      answers the result is the classification of the new answers alone. */
  method Retake(first: seq<string>, second: seq<string>) returns (result: string)
    requires |second| == N
    ensures result == Classify(second)
    ensures result != ""
  {
    var quiz := new QuizEngine();
    for i := 0 to |first| {
      quiz.HandleAnswer(first[i]);
    }
    quiz.Reset();
    for i := 0 to |second|
      invariant quiz.State() == Feed(Initial, second[..i])
    {
      quiz.HandleAnswer(second[i]);
      assert second[..i + 1][..i] == second[..i];
    }
    assert second[..|second|] == second;
    RunFromStart(second);
    result := quiz.wellnessType;
  }

  // ---------------------------------------------------------------------
  // The shipped question table

  /** The first question's tags are eat tags, and only its last option
      scores nothing. */
  lemma CookingTag(tag: string)
    requires tag in TagTable[0]
    ensures StartsWith(tag, "eat_")
    ensures Points(tag, "eat_pro", "eat_neutral") == 0 <==> tag == "eat_con"
  {
  }

  /** The second question's tags are live tags. */
  lemma ActivityTag(tag: string)
    requires tag in TagTable[1]
    ensures StartsWith(tag, "live_") && !StartsWith(tag, "eat_")
  {
    assert tag[0] == 'l';
  }

  /** The third question's tags are challenge tags. */
  lemma ChallengeTag(tag: string)
    requires tag in TagTable[2]
    ensures StartsWith(tag, "challenge_") && !StartsWith(tag, "eat_") && !StartsWith(tag, "live_")
  {
    assert tag[0] == 'c';
  }

  /** With the shipped table each score comes from one question only, so
      neither can exceed 2. */
  lemma ShippedScoresAtMostTwo(tags: seq<string>)
    requires Offered(tags)
    ensures Score(tags).eat <= 2 && Score(tags).live <= 2
  {
    var n := |tags|;
    assert tags[..n] == tags;
    if n > 0 {
      assert Score(tags[..1]).eat <= 2 && Score(tags[..1]).live == 0 by {
        assert StartsWith(tags[0], "eat_") by {
          CookingTag(tags[0]);
        }
        ScoreStep(tags, 0);
      }
    }
    if n > 1 {
      assert Score(tags[..2]).eat <= 2 && Score(tags[..2]).live <= 2 by {
        ActivityTag(tags[1]);
        ScoreStep(tags, 1);
        LiveAnswer(Score(tags[..1]), tags[1]);
      }
    }
    if n > 2 {
      assert Score(tags[..3]).eat <= 2 && Score(tags[..3]).live <= 2 by {
        ChallengeTag(tags[2]);
        ScoreStep(tags, 2);
        ChallengeAnswer(Score(tags[..2]), tags[2]);
      }
    }
  }

  /** Closed form of a completed shipped run: the eat score is the first
      answer's points, the live score the second's, and the focus the third
      answer's second field. */
  lemma ShippedScore(tags: seq<string>)
    requires |tags| == N && Offered(tags)
    ensures Score(tags) == Tally(Points(tags[0], "eat_pro", "eat_neutral"),
                                 Points(tags[1], "live_pro", "live_neutral"),
                                 SecondField(tags[2]))
  {
    CookingTag(tags[0]);
    ActivityTag(tags[1]);
    ChallengeTag(tags[2]);
    ScoreOfEatLiveChallenge(tags);
  }

  /** An eat answer, a live answer and a challenge answer, in that order,
      score independently of each other. */
  lemma ScoreOfEatLiveChallenge(tags: seq<string>)
    requires |tags| == 3
    requires StartsWith(tags[0], "eat_")
    requires StartsWith(tags[1], "live_") && !StartsWith(tags[1], "eat_")
    requires StartsWith(tags[2], "challenge_") && !StartsWith(tags[2], "eat_") && !StartsWith(tags[2], "live_")
    ensures Score(tags) == Tally(Points(tags[0], "eat_pro", "eat_neutral"),
                                 Points(tags[1], "live_pro", "live_neutral"),
                                 SecondField(tags[2]))
  {
    assert tags[..0] == [] && tags[..3] == tags;
    ScoreStep(tags, 0);
    ScoreStep(tags, 1);
    ScoreStep(tags, 2);
  }

  /** The challenge variants the third question offers. */
  const Challenges := ["motivation", "time", "cost", "knowledge"]

  /** Each option of the third question is `challenge_` followed by one of
      the variants. */
  lemma ChallengeOption(t: string)
    requires t in TagTable[2]
    ensures exists w :: w in Challenges && t == "challenge_" + w
  {
    if t == "challenge_motivation" {
      assert t == "challenge_" + "motivation";
    } else if t == "challenge_time" {
      assert t == "challenge_" + "time";
    } else if t == "challenge_cost" {
      assert t == "challenge_" + "cost";
    } else {
      assert t == "challenge_" + "knowledge";
    }
  }

  /** The focus read out of a shipped challenge option is its variant. */
  lemma ChallengeFocus(w: string)
    requires w in Challenges
    ensures SecondField("challenge_" + w) == w
    ensures w != ""
  {
    assert '_' !in w;
    assert '_' !in "challenge";
    assert "challenge_" + w == "challenge" + "_" + w;
    SecondFieldWhole("challenge", w);
  }

  /** The focus of a completed shipped run is the variant of the challenge
      option picked on the third question. */
  lemma ShippedFocus(tags: seq<string>)
    requires |tags| == N && Offered(tags)
    ensures Score(tags).focus == SecondField(tags[2])
    ensures SecondField(tags[2]) in Challenges
    ensures SecondField(tags[2]) != ""
  {
    ChallengeTag(tags[2]);
    ChallengeOption(tags[2]);
    var w :| w in Challenges && tags[2] == "challenge_" + w;
    ChallengeFocus(w);
    FocusOfLastChallenge(tags, 2);
  }

  /** Every completed run through the shipped questions ends as a Wellness
      Explorer naming the chosen challenge. */
  lemma ShippedRunEndsInExplorer(tags: seq<string>)
    requires |tags| == N && Offered(tags)
    ensures Feed(Initial, tags).wellnessType == ExplorerMessage(SecondField(tags[2]))
    ensures SecondField(tags[2]) in Challenges
  {
    var focus := SecondField(tags[2]);
    var t := Score(tags);
    assert t.eat < 3 && t.live < 3 by {
      ShippedScoresAtMostTwo(tags);
    }
    assert t.focus == focus && focus != "" && focus in Challenges by {
      ShippedFocus(tags);
    }
    assert Classify(tags) == ExplorerMessage(focus) by {
      ExplorerWithFocus(t);
    }
    assert Feed(Initial, tags).wellnessType == Classify(tags) by {
      RunFromStart(tags);
    }
  }

  // ---------------------------------------------------------------------
  // Worked runs

  /** Cooking most meals, rarely active, short of time: eat score 2, live
      score 0, and the Explorer message naming "time". */
  lemma ProCookShortOfTime(tags: seq<string>)
    requires tags == ["eat_pro", "live_con", "challenge_time"]
    ensures Score(tags) == Tally(2, 0, "time")
    ensures Feed(Initial, tags).wellnessType == ExplorerMessage("time")
  {
    assert Offered(tags);
    assert SecondField(tags[2]) == "time" by {
      ChallengeFocus("time");
      assert tags[2] == "challenge_" + "time";
    }
    ShippedScore(tags);
    ShippedRunEndsInExplorer(tags);
  }

  /** Cooking sometimes, active a few times a week, short of motivation:
      both scores 1 and the Explorer message naming "motivation". */
  lemma NeutralShortOfMotivation(tags: seq<string>)
    requires tags == ["eat_neutral", "live_neutral", "challenge_motivation"]
    ensures Score(tags) == Tally(1, 1, "motivation")
    ensures Feed(Initial, tags).wellnessType == ExplorerMessage("motivation")
  {
    assert Offered(tags);
    assert SecondField(tags[2]) == "motivation" by {
      ChallengeFocus("motivation");
      assert tags[2] == "challenge_" + "motivation";
    }
    ShippedScore(tags);
    ShippedRunEndsInExplorer(tags);
  }
}
