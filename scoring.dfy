/**
  The classification behind `determineWellnessType`: every answer tag is
  scored into an eat score, a live score and a challenge focus, and the
  three pick one of four fixed wellness-type messages.
 */
module Scoring {
  import opened Tags

  /** The three accumulators of one classification run. */
  datatype Tally = Tally(eat: nat, live: nat, focus: string)

  const Start := Tally(0, 0, "")

  /** Points one answer adds to a category score: 2 for the category's
      "pro" tag, 1 for its "neutral" tag, nothing for any other tag. */
  function Points(answer: string, pro: string, neutral: string): nat {
    if answer == pro then 2 else if answer == neutral then 1 else 0
  }

  /** The body of the `forEach`: how one answer updates the accumulators.
      The three prefix tests are tried in order and at most one applies. */
  function Apply(t: Tally, answer: string): Tally {
    if StartsWith(answer, "eat_") then
      t.(eat := t.eat + Points(answer, "eat_pro", "eat_neutral"))
    else if StartsWith(answer, "live_") then
      t.(live := t.live + Points(answer, "live_pro", "live_neutral"))
    else if StartsWith(answer, "challenge_") then
      t.(focus := SecondField(answer))
    else
      t
  }

  /** The accumulators after the `forEach` has visited every answer in order. */
  function Score(answers: seq<string>): Tally
    decreases |answers|
  {
    if |answers| == 0 then Start
    else Apply(Score(answers[..|answers| - 1]), answers[|answers| - 1])
  }

  /** One more turn of the loop: the prefix of length k + 1 is scored by
      applying answer k to the score of the prefix of length k. */
  lemma ScoreStep(answers: seq<string>, k: nat)
    requires k < |answers|
    ensures Score(answers[..k + 1]) == Apply(Score(answers[..k]), answers[k])
  {
    assert answers[..k + 1][..k] == answers[..k];
  }

  /** What the messages name when there is no challenge focus. */
  const FallbackFocus := "your biggest challenge"

  /** `challengeFocus || 'your biggest challenge'`: the focus, or the
      fallback phrase when the focus is empty. */
  function FocusText(focus: string): (r: string)
    ensures r != []
    ensures focus != [] ==> r == focus
    ensures focus == [] ==> r == FallbackFocus
  {
    if focus != [] then focus else FallbackFocus
  }

  /** The four messages open with distinct titles. The three that name the
      focus are a fixed lead, the focus, and a fixed tail. */
  const ChampionTitle := "Wellness Champion!"
  const ChampionText := " You're doing great. Keep exploring new ways to optimize your health."

  const EnthusiastTitle := "Eat Well Enthusiast!"
  const EnthusiastLead := " You've got nutrition down. Let's boost your activity and living habits. Focus on overcoming "
  const EnthusiastTail := "."

  const MoverTitle := "Live Well Mover!"
  const MoverLead := " You're active and mindful. Let's refine your eating habits for even better results. Focus on overcoming "
  const MoverTail := "."

  const ExplorerTitle := "Wellness Explorer!"
  const ExplorerLead := " You're ready to start your journey. Let's tackle "
  const ExplorerTail := " first, whether it's eating or living well."

  function ChampionMessage(): (r: string)
    ensures ChampionTitle <= r
  {
    ChampionTitle + ChampionText
  }

  function EnthusiastMessage(f: string): (r: string)
    ensures EnthusiastTitle <= r
  {
    EnthusiastTitle + EnthusiastLead + f + EnthusiastTail
  }

  function MoverMessage(f: string): (r: string)
    ensures MoverTitle <= r
  {
    MoverTitle + MoverLead + f + MoverTail
  }

  function ExplorerMessage(f: string): (r: string)
    ensures ExplorerTitle <= r
  {
    ExplorerTitle + ExplorerLead + f + ExplorerTail
  }

  /** The if/else cascade that picks the wellness type from the tally. */
  function Message(t: Tally): string {
    if t.eat >= 3 && t.live >= 3 then ChampionMessage()
    else if t.eat >= 3 then EnthusiastMessage(FocusText(t.focus))
    else if t.live >= 3 then MoverMessage(FocusText(t.focus))
    else ExplorerMessage(FocusText(t.focus))
  }

  /** The wellness type of a completed answer list. */
  function Classify(answers: seq<string>): (r: string)
    ensures r != []
  {
    Message(Score(answers))
  }

  /** `determineWellnessType`'s loop: accumulates the scores answer by
      answer, then runs the cascade. */
  method DetermineWellnessType(answers: seq<string>) returns (wellness: string)
    ensures wellness == Classify(answers)
  {
    var eatScore, liveScore, challengeFocus := 0, 0, "";
    for i := 0 to |answers|
      invariant Score(answers[..i]) == Tally(eatScore, liveScore, challengeFocus)
    {
      var answer := answers[i];
      ghost var before := Tally(eatScore, liveScore, challengeFocus);
      if StartsWith(answer, "eat_") {
        if answer == "eat_pro" {
          eatScore := eatScore + 2;
        } else if answer == "eat_neutral" {
          eatScore := eatScore + 1;
        }
      } else if StartsWith(answer, "live_") {
        if answer == "live_pro" {
          liveScore := liveScore + 2;
        } else if answer == "live_neutral" {
          liveScore := liveScore + 1;
        }
      } else if StartsWith(answer, "challenge_") {
        challengeFocus := SecondField(answer);
      }
      assert Tally(eatScore, liveScore, challengeFocus) == Apply(before, answer);
      assert answers[..i + 1][..i] == answers[..i];
    }
    assert answers[..|answers|] == answers;
    assert Classify(answers) == Message(Tally(eatScore, liveScore, challengeFocus));
    if eatScore >= 3 && liveScore >= 3 {
      wellness := ChampionMessage();
    } else if eatScore >= 3 {
      wellness := EnthusiastMessage(FocusText(challengeFocus));
    } else if liveScore >= 3 {
      wellness := MoverMessage(FocusText(challengeFocus));
    } else {
      wellness := ExplorerMessage(FocusText(challengeFocus));
    }
  }

  // ---------------------------------------------------------------------
  // What one answer contributes

  /** An `eat_` answer adds exactly 2 when it is "eat_pro", 1 when it is
      "eat_neutral", 0 otherwise, and touches nothing else. */
  lemma EatAnswer(t: Tally, answer: string)
    requires StartsWith(answer, "eat_")
    ensures Apply(t, answer).live == t.live && Apply(t, answer).focus == t.focus
    ensures answer == "eat_pro" <==> Apply(t, answer).eat == t.eat + 2
    ensures answer == "eat_neutral" <==> Apply(t, answer).eat == t.eat + 1
    ensures answer != "eat_pro" && answer != "eat_neutral" <==> Apply(t, answer).eat == t.eat
  {
  }

  /** A `live_` answer follows the same rule for the live score. */
  lemma LiveAnswer(t: Tally, answer: string)
    requires StartsWith(answer, "live_")
    ensures Apply(t, answer).eat == t.eat && Apply(t, answer).focus == t.focus
    ensures answer == "live_pro" <==> Apply(t, answer).live == t.live + 2
    ensures answer == "live_neutral" <==> Apply(t, answer).live == t.live + 1
    ensures answer != "live_pro" && answer != "live_neutral" <==> Apply(t, answer).live == t.live
  {
    assert !StartsWith(answer, "eat_") by {
      assert answer[0] == 'l';
    }
  }

  /** A `challenge_` answer replaces the focus with the text between its
      first underscore and the next one (or the end), leaving the scores. */
  lemma ChallengeAnswer(t: Tally, answer: string)
    requires StartsWith(answer, "challenge_")
    ensures Apply(t, answer).eat == t.eat && Apply(t, answer).live == t.live
    ensures var f := Apply(t, answer).focus;
            f <= answer[10..] && '_' !in f && (|f| == |answer| - 10 || answer[10 + |f|] == '_')
  {
    assert !StartsWith(answer, "eat_") && !StartsWith(answer, "live_") by {
      assert answer[0] == 'c';
    }
    assert answer == "challenge" + "_" + answer[10..];
    SecondFieldAfterPrefix("challenge", answer[10..]);
  }

  /** An answer with none of the three prefixes changes nothing. */
  predicate Unrecognised(answer: string) {
    !StartsWith(answer, "eat_") && !StartsWith(answer, "live_") && !StartsWith(answer, "challenge_")
  }

  /** Inserting an unrecognised answer anywhere leaves the whole tally as it
      was. */
  lemma {:induction false} UnrecognisedIgnored(before: seq<string>, answer: string, after: seq<string>)
    requires Unrecognised(answer)
    ensures Score(before + [answer] + after) == Score(before + after)
    decreases |after|
  {
    if |after| == 0 {
      assert before + [answer] + after == before + [answer];
      assert (before + [answer])[..|before|] == before;
      assert before + after == before;
    } else {
      var last := after[|after| - 1];
      var init := after[..|after| - 1];
      UnrecognisedIgnored(before, answer, init);
      assert (before + [answer] + after)[..|before + [answer] + after| - 1] == before + [answer] + init;
      assert (before + after)[..|before + after| - 1] == before + init;
    }
  }

  // ---------------------------------------------------------------------
  // The scores do not depend on answer order

  /** Closed form of the eat score: 2 per "eat_pro" answer plus 1 per
      "eat_neutral" answer. */
  lemma {:induction false} EatScoreCounts(answers: seq<string>)
    ensures Score(answers).eat == 2 * multiset(answers)["eat_pro"] + multiset(answers)["eat_neutral"]
    decreases |answers|
  {
    if |answers| > 0 {
      var init, last := answers[..|answers| - 1], answers[|answers| - 1];
      EatScoreCounts(init);
      assert answers == init + [last];
      assert multiset(answers) == multiset(init) + multiset{last};
      if StartsWith(last, "live_") {
        assert last[0] == 'l';
      } else if StartsWith(last, "challenge_") {
        assert last[0] == 'c';
      }
    }
  }

  /** Closed form of the live score: 2 per "live_pro" answer plus 1 per
      "live_neutral" answer. */
  lemma {:induction false} LiveScoreCounts(answers: seq<string>)
    ensures Score(answers).live == 2 * multiset(answers)["live_pro"] + multiset(answers)["live_neutral"]
    decreases |answers|
  {
    if |answers| > 0 {
      var init, last := answers[..|answers| - 1], answers[|answers| - 1];
      LiveScoreCounts(init);
      assert answers == init + [last];
      assert multiset(answers) == multiset(init) + multiset{last};
      if StartsWith(last, "eat_") {
        assert last[0] == 'e';
      } else if StartsWith(last, "challenge_") {
        assert last[0] == 'c';
      }
    }
  }

  /** Reordering the answers leaves both scores unchanged. */
  lemma ScoresIgnoreOrder(a: seq<string>, b: seq<string>)
    requires multiset(a) == multiset(b)
    ensures Score(a).eat == Score(b).eat && Score(a).live == Score(b).live
  {
    EatScoreCounts(a);
    EatScoreCounts(b);
    LiveScoreCounts(a);
    LiveScoreCounts(b);
  }

  // ---------------------------------------------------------------------
  // The challenge focus

  /** With no `challenge_` answer the focus stays empty. */
  lemma {:induction false} FocusWithoutChallenge(answers: seq<string>)
    requires forall i :: 0 <= i < |answers| ==> !StartsWith(answers[i], "challenge_")
    ensures Score(answers).focus == ""
    decreases |answers|
  {
    if |answers| > 0 {
      FocusWithoutChallenge(answers[..|answers| - 1]);
    }
  }

  /** The focus is the second field of the last `challenge_` answer: last
      one wins. */
  lemma {:induction false} FocusOfLastChallenge(answers: seq<string>, k: nat)
    requires k < |answers| && StartsWith(answers[k], "challenge_")
    requires forall j :: k < j < |answers| ==> !StartsWith(answers[j], "challenge_")
    ensures Score(answers).focus == SecondField(answers[k])
    decreases |answers|
  {
    var n := |answers|;
    if k < n - 1 {
      FocusOfLastChallenge(answers[..n - 1], k);
      var last := answers[n - 1];
      if StartsWith(last, "eat_") {
      } else if StartsWith(last, "live_") {
      } else {
        assert !StartsWith(last, "challenge_");
      }
    } else {
      var last := answers[n - 1];
      assert !StartsWith(last, "eat_") && !StartsWith(last, "live_") by {
        assert last[0] == 'c';
      }
    }
  }

  // ---------------------------------------------------------------------
  // The cascade

  /** Exactly one of the four wellness types is chosen, by the thresholds,
      and the message tells which: each branch holds precisely when its
      threshold condition does. */
  lemma MessageByThresholds(t: Tally)
    ensures Message(t) == ChampionMessage() <==> t.eat >= 3 && t.live >= 3
    ensures Message(t) == EnthusiastMessage(FocusText(t.focus)) <==> t.eat >= 3 && t.live < 3
    ensures Message(t) == MoverMessage(FocusText(t.focus)) <==> t.eat < 3 && t.live >= 3
    ensures Message(t) == ExplorerMessage(FocusText(t.focus)) <==> t.eat < 3 && t.live < 3
  {
    var f := FocusText(t.focus);
    var c, e, m, x := ChampionMessage(), EnthusiastMessage(f), MoverMessage(f), ExplorerMessage(f);
    assert c[0] == 'W' && e[0] == 'E' && m[0] == 'L' && x[0] == 'W';
    assert c[9] == 'C' && x[9] == 'E';
  }

  /** Every type but Champion names the focus, or the fallback phrase when
      there is no focus. */
  lemma MessageMentionsFocus(t: Tally)
    requires !(t.eat >= 3 && t.live >= 3)
    ensures Mentions(Message(t), FocusText(t.focus))
  {
    var f := FocusText(t.focus);
    var a, b: string;
    if t.eat >= 3 {
      a, b := EnthusiastTitle + EnthusiastLead, EnthusiastTail;
    } else if t.live >= 3 {
      a, b := MoverTitle + MoverLead, MoverTail;
    } else {
      a, b := ExplorerTitle + ExplorerLead, ExplorerTail;
    }
    assert Message(t) == a + f + b;
    assert f <= (a + f + b)[|a|..];
  }

  /** `sub` occurs somewhere in `s`. */
  predicate Mentions(s: string, sub: string) {
    exists i :: 0 <= i <= |s| && sub <= s[i..]
  }

  /** Below both thresholds and without a focus (no challenge answer, see
      FocusWithoutChallenge, or a bare one, see BareChallengeField), the
      message is the Explorer one with the fallback phrase. */
  lemma FallbackMessage(t: Tally)
    requires t.focus == "" && t.eat < 3 && t.live < 3
    ensures Message(t) == ExplorerMessage(FallbackFocus)
  {
  }

  /** Below both thresholds with a focus chosen: the Explorer message
      naming that focus. */
  lemma ExplorerWithFocus(t: Tally)
    requires t.focus != "" && t.eat < 3 && t.live < 3
    ensures Message(t) == ExplorerMessage(t.focus)
  {
  }

  /** A bare "challenge_" tag has an empty second field. */
  lemma BareChallengeField(t: string)
    requires t == "challenge_"
    ensures StartsWith(t, "challenge_") && SecondField(t) == ""
  {
    assert t == "challenge" + "_" + "";
    SecondFieldAfterPrefix("challenge", "");
  }
}
