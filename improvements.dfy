/**
 * The design-improvement summary: one recommendation for every principle
 * scored 2 or lower, in a fixed order, or a single closing remark when no
 * principle is that low; the recommendations joined into one paragraph.
 */
module Improvements {
  import opened Text
  import opened Scoring

  const ScaffoldingRecommendation :=
    "Increase **adaptive" + " scaffolding** (teacher," + " peers, or tools) that" +
    " responds to learner" + " difficulty."
  const IcapRecommendation :=
    "Redesign tasks so learners" + " must **explain, justify, or" + " create**, moving beyond" +
    " simple completion."
  const CollaborationRecommendation :=
    "Add **structured" + " collaboration**" + " (pairs/groups with roles" +
    " and shared artifacts)."
  const MetacognitionRecommendation :=
    "Embed regular" + " **metacognitive prompts**" + " (plan, monitor, reflect on" +
    " strategies and" + " understanding)."
  const FeedbackRecommendation :=
    "Shift feedback from" + " right/wrong toward" + " **diagnostic explanations**" +
    " linked to misconceptions."

  /** The remark used when no principle needs a recommendation. */
  const AlreadyStrong :=
    "This environment already" + " reflects many strong design" + " principles. Future work" +
    " could focus on fine-tuning" + " task design and alignment" + " across scaffolding," +
    " collaboration, and" + " metacognition."

  /** The recommendations in the order the principles are checked. */
  const Recommendations := [ScaffoldingRecommendation, IcapRecommendation, CollaborationRecommendation,
                            MetacognitionRecommendation, FeedbackRecommendation]

  /** The scores in that same order: scaffolding, ICAP, collaboration, metacognition, feedback. */
  function CheckedScores(p: Profile): (r: seq<int>)
    ensures |r| == |Recommendations|
  {
    [p.scaffolding, p.icap, p.collaboration, p.metacognition, p.feedback]
  }

  /** A score of 2 or lower calls for a recommendation. */
  predicate NeedsWork(score: int)
  {
    score <= 2
  }

  // ---------------------------------------------------------------------------
  // Selecting the texts whose score is low
  // ---------------------------------------------------------------------------

  /** The texts whose score is low, in their original order. */
  function Triggered(texts: seq<string>, scores: seq<int>): (r: seq<string>)
    requires |texts| == |scores|
    ensures |r| <= |texts|
  {
    if texts == [] then []
    else
      var n := |texts| - 1;
      Triggered(texts[..n], scores[..n]) + (if NeedsWork(scores[n]) then [texts[n]] else [])
  }

  /** The positions of the low scores, in increasing order. */
  function LowPositions(scores: seq<int>): seq<nat>
  {
    if scores == [] then []
    else
      var n := |scores| - 1;
      LowPositions(scores[..n]) + (if NeedsWork(scores[n]) then [n] else [])
  }

  /** The positions are exactly those of the low scores, each once and in increasing order. */
  lemma {:induction false} LowPositionsSpec(scores: seq<int>)
    ensures forall m :: 0 <= m < |LowPositions(scores)| ==> LowPositions(scores)[m] < |scores|
    ensures forall m :: 0 <= m < |LowPositions(scores)| ==> NeedsWork(scores[LowPositions(scores)[m]])
    ensures forall m, n :: 0 <= m < n < |LowPositions(scores)| ==> LowPositions(scores)[m] < LowPositions(scores)[n]
    ensures forall k :: 0 <= k < |scores| && NeedsWork(scores[k]) ==> k in LowPositions(scores)
    decreases |scores|
  {
    if scores != [] {
      var n := |scores| - 1;
      LowPositionsSpec(scores[..n]);
      var prefix := scores[..n];
      assert forall k :: 0 <= k < n ==> prefix[k] == scores[k];
    }
  }

  /** `selected` lists the texts at `positions`, one for one. */
  predicate AtPositions(selected: seq<string>, positions: seq<nat>, texts: seq<string>)
  {
    |selected| == |positions|
    && forall m :: 0 <= m < |positions| ==> positions[m] < |texts| && selected[m] == texts[positions[m]]
  }

  /** Positions in a prefix are positions in the whole; one more text and its position extend the lists. */
  lemma AtPositionsWiden(selected: seq<string>, positions: seq<nat>, texts: seq<string>, n: nat)
    requires n < |texts| && AtPositions(selected, positions, texts[..n])
    ensures AtPositions(selected, positions, texts)
    ensures AtPositions(selected + [texts[n]], positions + [n], texts)
  {
    var longer, wider := selected + [texts[n]], positions + [n];
    assert forall m :: 0 <= m < |positions| ==> longer[m] == selected[m] && wider[m] == positions[m];
  }

  /**
   * The selected texts are the texts at the low positions: the selection keeps
   * their order and drops exactly the texts whose score is above 2.
   */
  lemma {:induction false} TriggeredAtLowPositions(texts: seq<string>, scores: seq<int>)
    requires |texts| == |scores|
    ensures AtPositions(Triggered(texts, scores), LowPositions(scores), texts)
    decreases |texts|
  {
    if texts != [] {
      var n := |texts| - 1;
      TriggeredAtLowPositions(texts[..n], scores[..n]);
      AtPositionsWiden(Triggered(texts[..n], scores[..n]), LowPositions(scores[..n]), texts, n);
    }
  }

  /** With distinct texts, a text is selected exactly when its own score is low. */
  lemma {:induction false} TriggeredMember(texts: seq<string>, scores: seq<int>, k: nat)
    requires |texts| == |scores| && k < |texts|
    requires forall i, j :: 0 <= i < j < |texts| ==> texts[i] != texts[j]
    ensures texts[k] in Triggered(texts, scores) <==> NeedsWork(scores[k])
    decreases |texts|
  {
    var n := |texts| - 1;
    var prefix := texts[..n];
    if k < n {
      assert forall i, j :: 0 <= i < j < |prefix| ==> prefix[i] != prefix[j] by {
        assert forall i :: 0 <= i < n ==> prefix[i] == texts[i];
      }
      TriggeredMember(prefix, scores[..n], k);
      assert prefix[k] == texts[k] && scores[..n][k] == scores[k];
    } else {
      TriggeredOnlyFrom(prefix, scores[..n], texts[k]);
      assert forall i :: 0 <= i < n ==> prefix[i] == texts[i];
    }
  }

  /** Every selected text is one of the texts. */
  lemma {:induction false} TriggeredOnlyFrom(texts: seq<string>, scores: seq<int>, x: string)
    requires |texts| == |scores|
    ensures x in Triggered(texts, scores) ==> x in texts
    decreases |texts|
  {
    if texts != [] {
      var n := |texts| - 1;
      TriggeredOnlyFrom(texts[..n], scores[..n], x);
      assert texts == texts[..n] + [texts[n]];
    }
  }

  /** Nothing is selected exactly when no score is low. */
  lemma {:induction false} TriggeredEmptyIff(texts: seq<string>, scores: seq<int>)
    requires |texts| == |scores|
    ensures Triggered(texts, scores) == [] <==> forall k :: 0 <= k < |scores| ==> !NeedsWork(scores[k])
    decreases |texts|
  {
    if texts != [] {
      var n := |texts| - 1;
      TriggeredEmptyIff(texts[..n], scores[..n]);
      var prefix := scores[..n];
      assert forall k :: 0 <= k < n ==> prefix[k] == scores[k];
    }
  }

  // ---------------------------------------------------------------------------
  // The improvement list
  // ---------------------------------------------------------------------------

  /** The recommendations a profile calls for, or the closing remark when it calls for none. */
  function ImprovementList(p: Profile): (r: seq<string>)
    ensures 1 <= |r| <= |Recommendations|
  {
    var picked := Triggered(Recommendations, CheckedScores(p));
    if picked == [] then [AlreadyStrong] else picked
  }

  /** The one-element list of `x` when the score is low, else nothing. */
  function IfLow(x: string, score: int): seq<string>
  {
    if NeedsWork(score) then [x] else []
  }

  /** Selecting from a prefix one longer adds that text's own contribution. */
  lemma TriggeredStep(texts: seq<string>, scores: seq<int>, n: nat)
    requires |texts| == |scores| && n < |texts|
    ensures Triggered(texts[..n + 1], scores[..n + 1]) == Triggered(texts[..n], scores[..n]) + IfLow(texts[n], scores[n])
  {
    assert texts[..n + 1][..n] == texts[..n];
    assert scores[..n + 1][..n] == scores[..n];
  }

  /** Five texts: the selection is each text's own contribution in turn. */
  lemma TriggeredFive(texts: seq<string>, scores: seq<int>)
    requires |texts| == 5 && |scores| == 5
    ensures Triggered(texts, scores)
            == IfLow(texts[0], scores[0]) + IfLow(texts[1], scores[1]) + IfLow(texts[2], scores[2])
               + IfLow(texts[3], scores[3]) + IfLow(texts[4], scores[4])
  {
    var a, b, c := IfLow(texts[0], scores[0]), IfLow(texts[1], scores[1]), IfLow(texts[2], scores[2]);
    var d, e := IfLow(texts[3], scores[3]), IfLow(texts[4], scores[4]);
    assert texts[..0] == [] && scores[..0] == [];
    TriggeredStep(texts, scores, 0);
    assert Triggered(texts[..1], scores[..1]) == a;
    TriggeredStep(texts, scores, 1);
    assert Triggered(texts[..2], scores[..2]) == a + b;
    TriggeredStep(texts, scores, 2);
    assert Triggered(texts[..3], scores[..3]) == a + b + c;
    TriggeredStep(texts, scores, 3);
    assert Triggered(texts[..4], scores[..4]) == a + b + c + d;
    TriggeredStep(texts, scores, 4);
    assert texts[..5] == texts && scores[..5] == scores;
  }

  /** The list is built by five checks in a row, each appending its recommendation, then the fallback. */
  method BuildImprovements(p: Profile) returns (items: seq<string>)
    ensures items == ImprovementList(p)
  {
    items := [];
    if p.scaffolding <= 2 {
      items := items + [ScaffoldingRecommendation];
    }
    assert items == IfLow(ScaffoldingRecommendation, p.scaffolding);
    if p.icap <= 2 {
      items := items + [IcapRecommendation];
    }
    assert items == IfLow(ScaffoldingRecommendation, p.scaffolding) + IfLow(IcapRecommendation, p.icap);
    if p.collaboration <= 2 {
      items := items + [CollaborationRecommendation];
    }
    assert items == IfLow(ScaffoldingRecommendation, p.scaffolding) + IfLow(IcapRecommendation, p.icap)
                    + IfLow(CollaborationRecommendation, p.collaboration);
    if p.metacognition <= 2 {
      items := items + [MetacognitionRecommendation];
    }
    assert items == IfLow(ScaffoldingRecommendation, p.scaffolding) + IfLow(IcapRecommendation, p.icap)
                    + IfLow(CollaborationRecommendation, p.collaboration) + IfLow(MetacognitionRecommendation, p.metacognition);
    if p.feedback <= 2 {
      items := items + [FeedbackRecommendation];
    }
    TriggeredFive(Recommendations, CheckedScores(p));
    if items == [] {
      items := items + [AlreadyStrong];
    }
  }

  /** No two recommendations are the same text, and the closing remark is none of them. */
  lemma RecommendationsDistinct()
    ensures forall i, j :: 0 <= i < j < |Recommendations| ==> Recommendations[i] != Recommendations[j]
    ensures AlreadyStrong !in Recommendations
  {
    assert ScaffoldingRecommendation[0] == 'I';
    assert IcapRecommendation[0] == 'R';
    assert CollaborationRecommendation[0] == 'A';
    assert MetacognitionRecommendation[0] == 'E';
    assert FeedbackRecommendation[0] == 'S';
    assert AlreadyStrong[0] == 'T';
  }

  /** Each principle's recommendation is in the list exactly when its score is 2 or lower. */
  lemma RecommendationIff(p: Profile, k: nat)
    requires k < |Recommendations|
    ensures Recommendations[k] in ImprovementList(p) <==> CheckedScores(p)[k] <= 2
  {
    RecommendationsDistinct();
    TriggeredMember(Recommendations, CheckedScores(p), k);
  }

  /**
   * The closing remark appears exactly when every score is above 2, and then
   * it is the whole list; the list is never empty.
   */
  lemma FallbackIff(p: Profile)
    ensures ImprovementList(p) != []
    ensures AlreadyStrong in ImprovementList(p) <==>
              p.scaffolding > 2 && p.icap > 2 && p.collaboration > 2 && p.metacognition > 2 && p.feedback > 2
    ensures AlreadyStrong in ImprovementList(p) ==> ImprovementList(p) == [AlreadyStrong]
  {
    var scores := CheckedScores(p);
    TriggeredEmptyIff(Recommendations, scores);
    RecommendationsDistinct();
    TriggeredOnlyFrom(Recommendations, scores, AlreadyStrong);
    assert scores[0] == p.scaffolding && scores[1] == p.icap && scores[2] == p.collaboration;
    assert scores[3] == p.metacognition && scores[4] == p.feedback;
  }

  /**
   * The recommendations in the list keep the order in which the principles are
   * checked: the list is the recommendations at the low positions.
   */
  lemma ImprovementsInCheckOrder(p: Profile)
    ensures Triggered(Recommendations, CheckedScores(p)) != [] ==>
              var positions := LowPositions(CheckedScores(p));
              |ImprovementList(p)| == |positions| &&
              (forall m :: 0 <= m < |positions| ==> positions[m] < 5 && ImprovementList(p)[m] == Recommendations[positions[m]]) &&
              (forall m, n :: 0 <= m < n < |positions| ==> positions[m] < positions[n])
  {
    TriggeredAtLowPositions(Recommendations, CheckedScores(p));
    LowPositionsSpec(CheckedScores(p));
  }

  /**
   * `" ".join(improvements)`: the improvement paragraph. The items stand in
   * list order with one space after each but the last, and nothing else is
   * added.
   */
  function ImprovementParagraph(p: Profile): (r: string)
    ensures |r| == TotalLength(ImprovementList(p)) + |ImprovementList(p)| - 1
    ensures JoinedBy(r, ImprovementList(p), " ")
  {
    JoinPartsInOrder(ImprovementList(p), " ");
    Join(ImprovementList(p), " ")
  }

  /** The paragraph carries the recommendation of every principle scored 2 or lower. */
  lemma ParagraphHoldsRecommendations(p: Profile, k: nat)
    requires k < |Recommendations| && CheckedScores(p)[k] <= 2
    ensures Contains(ImprovementParagraph(p), Recommendations[k])
  {
    RecommendationIff(p, k);
    var list := ImprovementList(p);
    var i :| 0 <= i < |list| && list[i] == Recommendations[k];
    JoinedByContains(ImprovementParagraph(p), list, " ", i);
  }
}
