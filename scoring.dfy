/**
 * The questionnaire and its scorers: five radio questions, each answer
 * mapped to a small integer by ordered, case-sensitive substring tests in
 * which the first test that matches decides.
 *
 * Long option texts are written as concatenations of short pieces, cut at
 * word boundaries, with the keyword a scorer looks for as a piece of its
 * own; the value of each constant is the option text exactly.
 */
module Scoring {
  import opened Text

  // ---------------------------------------------------------------------------
  // The options of the five questions
  // ---------------------------------------------------------------------------

  // 1. How often is support adjusted to what learners need?
  const ScaffoldingAlmostNever := "Almost " + "never" + " – support is fixed" + " or absent"
  const ScaffoldingSometimes := "Sometimes" + " – some adjustment" + " for struggling" + " learners"
  const ScaffoldingOften := "Often – support" + " is clearly tailored" + " and responsive"
  const ScaffoldingOptions := [ScaffoldingAlmostNever, ScaffoldingSometimes, ScaffoldingOften]

  // 2. What do learners mostly do during the activity?
  const IcapListen := "Listen" + " / watch / read" + " (no required action)"
  const IcapAnswer := "Answer questions" + " / complete tasks" + " (short answers," + " click, copy)"
  const IcapExplain := "Explain, justify" + ", create, or solve" + " open-ended problems"
  const IcapDiscuss := "Discuss, argue, or" + " co-construct ideas" + " with others"
  const IcapOptions := [IcapListen, IcapAnswer, IcapExplain, IcapDiscuss]

  // 3. How is feedback usually given?
  const FeedbackRightWrong := "Mostly " + "right/wrong" + " with little" + " explanation"
  const FeedbackSomeExplanation := "Some explanation" + ", but not always" + " tied to specific" + " misconceptions"
  const FeedbackTargeted := "Targeted, explanatory" + " feedback that" + " responds to learner" + " thinking"
  const FeedbackOptions := [FeedbackRightWrong, FeedbackSomeExplanation, FeedbackTargeted]

  // 4. What kind of collaboration do learners do?
  const CollaborationIndividual := "Mostly " + "individual" + " work"
  const CollaborationOccasional := "Occasional" + " pair/small" + " group work"
  const CollaborationFrequent := "Frequent, structured" + " collaboration" + " (roles, shared" + " products, etc.)"
  const CollaborationOptions := [CollaborationIndividual, CollaborationOccasional, CollaborationFrequent]

  // 5. How much metacognition is built into the activity?
  const MetacognitionAlmostNone := "Almost " + "none" + " – learners are not" + " asked to reflect" + " or plan"
  const MetacognitionSometimes := "Sometimes" + " – occasional" + " reflection questions" + " or check-ins"
  const MetacognitionOften := "Often – learners" + " regularly plan," + " monitor, and reflect" + " on learning"
  const MetacognitionOptions := [MetacognitionAlmostNone, MetacognitionSometimes, MetacognitionOften]

  // ---------------------------------------------------------------------------
  // The scorers
  // ---------------------------------------------------------------------------

  /** `map_scaffolding`: "never" gives 1, else "Sometimes" gives 3, else 5. */
  function MapScaffolding(a: string): (r: int)
    ensures r in {1, 3, 5}
  {
    if Contains(a, "never") then 1
    else if Contains(a, "Sometimes") then 3
    else 5
  }

  /** `map_icap`: "Listen" 1, "Answer questions" 2, "Explain, justify" 4, else 5; 3 is never produced. */
  function MapIcap(a: string): (r: int)
    ensures r in {1, 2, 4, 5}
  {
    if Contains(a, "Listen") then 1
    else if Contains(a, "Answer questions") then 2
    else if Contains(a, "Explain, justify") then 4
    else 5
  }

  /** `map_feedback`: "right/wrong" gives 2, else "Some explanation" gives 3, else 5. */
  function MapFeedback(a: string): (r: int)
    ensures r in {2, 3, 5}
  {
    if Contains(a, "right/wrong") then 2
    else if Contains(a, "Some explanation") then 3
    else 5
  }

  /** `map_collab`: "individual" gives 1, else "Occasional" gives 3, else 5. */
  function MapCollaboration(a: string): (r: int)
    ensures r in {1, 3, 5}
  {
    if Contains(a, "individual") then 1
    else if Contains(a, "Occasional") then 3
    else 5
  }

  /** `map_meta`: "none" gives 1, else "Sometimes" gives 3, else 5. */
  function MapMetacognition(a: string): (r: int)
    ensures r in {1, 3, 5}
  {
    if Contains(a, "none") then 1
    else if Contains(a, "Sometimes") then 3
    else 5
  }

  // ---------------------------------------------------------------------------
  // Profiles
  // ---------------------------------------------------------------------------

  /** One score per design principle. */
  datatype Profile = Profile(scaffolding: int, icap: int, feedback: int, collaboration: int, metacognition: int)

  /** The principle names, in the order every profile lists them. */
  const PrincipleNames := ["Scaffolding", "ICAP engagement", "Feedback quality", "Collaboration", "Metacognitive support"]

  /** A profile as the ordered name-to-score dictionary the application builds. */
  function Entries(p: Profile): (r: seq<(string, int)>)
    ensures |r| == |PrincipleNames| && forall k :: 0 <= k < |r| ==> r[k].0 == PrincipleNames[k]
    ensures r[0].1 == p.scaffolding && r[1].1 == p.icap && r[2].1 == p.feedback
    ensures r[3].1 == p.collaboration && r[4].1 == p.metacognition
  {
    [(PrincipleNames[0], p.scaffolding), (PrincipleNames[1], p.icap), (PrincipleNames[2], p.feedback),
     (PrincipleNames[3], p.collaboration), (PrincipleNames[4], p.metacognition)]
  }

  /** The five radio answers, `q1` to `q5`. */
  datatype Answers = Answers(q1: string, q2: string, q3: string, q4: string, q5: string)

  /** `custom_scores`: each answer scored by its own question's scorer. */
  function ScoreAnswers(a: Answers): (p: Profile)
    ensures p.scaffolding in {1, 3, 5} && p.icap in {1, 2, 4, 5} && p.feedback in {2, 3, 5}
    ensures p.collaboration in {1, 3, 5} && p.metacognition in {1, 3, 5}
  {
    Profile(MapScaffolding(a.q1), MapIcap(a.q2), MapFeedback(a.q3), MapCollaboration(a.q4), MapMetacognition(a.q5))
  }

  // ---------------------------------------------------------------------------
  // What each option scores
  //
  // A scorer's tests run in order, so an option's score needs two kinds of
  // fact: the keyword of its own branch occurs in it, and the keywords of
  // every earlier branch do not. Occurrence is shown by naming the piece of
  // the option the keyword is. Absence is shown through one character: a
  // keyword with a character the option never uses cannot occur in it. Each
  // such character fact is a lemma of its own (`...LacksLowerV`), and where
  // every character of the keyword does appear, the absence is shown at a
  // cut between two pieces of the option (the `...Cuts` lemmas).
  // ---------------------------------------------------------------------------

  lemma ScaffoldingAlmostNeverScore()
    ensures MapScaffolding(ScaffoldingAlmostNever) == 1
  {
    assert ScaffoldingAlmostNever == "Almost " + "never" + (" – support is fixed" + " or absent");
    ContainsMiddle("Almost ", "never", " – support is fixed" + " or absent");
  }

  lemma ScaffoldingSometimesLacksLowerV()
    ensures 'v' !in ScaffoldingSometimes
  {
  }

  lemma ScaffoldingSometimesScore()
    ensures MapScaffolding(ScaffoldingSometimes) == 3
  {
    ScaffoldingSometimesLacksLowerV();
    Lacks(ScaffoldingSometimes, "never", 2);
    assert ScaffoldingSometimes == "Sometimes" + (" – some adjustment" + " for struggling" + " learners");
    ContainsPrefix("Sometimes", " – some adjustment" + " for struggling" + " learners");
  }

  lemma ScaffoldingOftenLacksCapitalS()
    ensures 'S' !in ScaffoldingOften
  {
  }

  lemma ScaffoldingOftenScore()
    ensures MapScaffolding(ScaffoldingOften) == 5
  {
    OftenSupportHasNoNever();
    ScaffoldingOftenLacksCapitalS();
    Lacks(ScaffoldingOften, "Sometimes", 0);
  }

  /** The three scaffolding options score 1, 3 and 5, in the order they are offered. */
  lemma ScaffoldingOptionScores()
    ensures |ScaffoldingOptions| == 3
    ensures MapScaffolding(ScaffoldingOptions[0]) == 1
    ensures MapScaffolding(ScaffoldingOptions[1]) == 3
    ensures MapScaffolding(ScaffoldingOptions[2]) == 5
  {
    ScaffoldingAlmostNeverScore();
    ScaffoldingSometimesScore();
    ScaffoldingOftenScore();
  }

  /** The only 'v' is in "responsive", and no cut around it leaves room for "never". */
  lemma OftenSupportHasNoNever()
    ensures !Contains(ScaffoldingOften, "never")
  {
    var x := "Often – support" + " is clearly tailored" + " and re";
    assert ScaffoldingOften == x + "sponsive";
    Lacks(x, "never", 2);
    AbsentAcrossCut(x, "sponsive", "never", 4);
  }

  lemma IcapListenScore()
    ensures MapIcap(IcapListen) == 1
  {
    assert IcapListen == "Listen" + (" / watch / read" + " (no required action)");
    ContainsPrefix("Listen", " / watch / read" + " (no required action)");
  }

  lemma IcapAnswerLacksCapitalL()
    ensures 'L' !in IcapAnswer
  {
  }

  lemma IcapAnswerScore()
    ensures MapIcap(IcapAnswer) == 2
  {
    IcapAnswerLacksCapitalL();
    Lacks(IcapAnswer, "Listen", 0);
    assert IcapAnswer == "Answer questions" + (" / complete tasks" + " (short answers," + " click, copy)");
    ContainsPrefix("Answer questions", " / complete tasks" + " (short answers," + " click, copy)");
  }

  lemma IcapExplainLacksCapitalL()
    ensures 'L' !in IcapExplain
  {
  }

  lemma IcapExplainLacksCapitalA()
    ensures 'A' !in IcapExplain
  {
  }

  lemma IcapExplainScore()
    ensures MapIcap(IcapExplain) == 4
  {
    IcapExplainLacksCapitalL();
    IcapExplainLacksCapitalA();
    Lacks(IcapExplain, "Listen", 0);
    Lacks(IcapExplain, "Answer questions", 0);
    assert IcapExplain == "Explain, justify" + (", create, or solve" + " open-ended problems");
    ContainsPrefix("Explain, justify", ", create, or solve" + " open-ended problems");
  }

  lemma IcapDiscussLacksCapitalL()
    ensures 'L' !in IcapDiscuss
  {
  }

  lemma IcapDiscussLacksCapitalA()
    ensures 'A' !in IcapDiscuss
  {
  }

  lemma IcapDiscussLacksCapitalE()
    ensures 'E' !in IcapDiscuss
  {
  }

  lemma IcapDiscussScore()
    ensures MapIcap(IcapDiscuss) == 5
  {
    IcapDiscussLacksCapitalL();
    IcapDiscussLacksCapitalA();
    IcapDiscussLacksCapitalE();
    Lacks(IcapDiscuss, "Listen", 0);
    Lacks(IcapDiscuss, "Answer questions", 0);
    Lacks(IcapDiscuss, "Explain, justify", 0);
  }

  /** The four ICAP options score 1, 2, 4 and 5, in the order they are offered; none scores 3. */
  lemma IcapOptionScores()
    ensures |IcapOptions| == 4
    ensures MapIcap(IcapOptions[0]) == 1
    ensures MapIcap(IcapOptions[1]) == 2
    ensures MapIcap(IcapOptions[2]) == 4
    ensures MapIcap(IcapOptions[3]) == 5
  {
    IcapListenScore();
    IcapAnswerScore();
    IcapExplainScore();
    IcapDiscussScore();
  }

  lemma FeedbackRightWrongScore()
    ensures MapFeedback(FeedbackRightWrong) == 2
  {
    assert FeedbackRightWrong == "Mostly " + "right/wrong" + (" with little" + " explanation");
    ContainsMiddle("Mostly ", "right/wrong", " with little" + " explanation");
  }

  lemma FeedbackSomeExplanationLacksSlash()
    ensures '/' !in FeedbackSomeExplanation
  {
  }

  lemma FeedbackSomeExplanationScore()
    ensures MapFeedback(FeedbackSomeExplanation) == 3
  {
    FeedbackSomeExplanationLacksSlash();
    Lacks(FeedbackSomeExplanation, "right/wrong", 5);
    assert FeedbackSomeExplanation == "Some explanation" + (", but not always" + " tied to specific" + " misconceptions");
    ContainsPrefix("Some explanation", ", but not always" + " tied to specific" + " misconceptions");
  }

  lemma FeedbackTargetedLacksSlash()
    ensures '/' !in FeedbackTargeted
  {
  }

  lemma FeedbackTargetedLacksCapitalS()
    ensures 'S' !in FeedbackTargeted
  {
  }

  lemma FeedbackTargetedScore()
    ensures MapFeedback(FeedbackTargeted) == 5
  {
    FeedbackTargetedLacksSlash();
    FeedbackTargetedLacksCapitalS();
    Lacks(FeedbackTargeted, "right/wrong", 5);
    Lacks(FeedbackTargeted, "Some explanation", 0);
  }

  /** The three feedback options score 2, 3 and 5, in the order they are offered. */
  lemma FeedbackOptionScores()
    ensures |FeedbackOptions| == 3
    ensures MapFeedback(FeedbackOptions[0]) == 2
    ensures MapFeedback(FeedbackOptions[1]) == 3
    ensures MapFeedback(FeedbackOptions[2]) == 5
  {
    FeedbackRightWrongScore();
    FeedbackSomeExplanationScore();
    FeedbackTargetedScore();
  }

  lemma CollaborationIndividualScore()
    ensures MapCollaboration(CollaborationIndividual) == 1
  {
    ContainsMiddle("Mostly ", "individual", " work");
  }

  lemma CollaborationOccasionalLacksLowerV()
    ensures 'v' !in CollaborationOccasional
  {
  }

  lemma CollaborationOccasionalScore()
    ensures MapCollaboration(CollaborationOccasional) == 3
  {
    CollaborationOccasionalLacksLowerV();
    Lacks(CollaborationOccasional, "individual", 4);
    assert CollaborationOccasional == "Occasional" + (" pair/small" + " group work");
    ContainsPrefix("Occasional", " pair/small" + " group work");
  }

  lemma CollaborationFrequentLacksLowerV()
    ensures 'v' !in CollaborationFrequent
  {
  }

  lemma CollaborationFrequentLacksCapitalO()
    ensures 'O' !in CollaborationFrequent
  {
  }

  lemma CollaborationFrequentScore()
    ensures MapCollaboration(CollaborationFrequent) == 5
  {
    CollaborationFrequentLacksLowerV();
    CollaborationFrequentLacksCapitalO();
    Lacks(CollaborationFrequent, "individual", 4);
    Lacks(CollaborationFrequent, "Occasional", 0);
  }

  /** The three collaboration options score 1, 3 and 5, in the order they are offered. */
  lemma CollaborationOptionScores()
    ensures |CollaborationOptions| == 3
    ensures MapCollaboration(CollaborationOptions[0]) == 1
    ensures MapCollaboration(CollaborationOptions[1]) == 3
    ensures MapCollaboration(CollaborationOptions[2]) == 5
  {
    CollaborationIndividualScore();
    CollaborationOccasionalScore();
    CollaborationFrequentScore();
  }

  lemma MetacognitionAlmostNoneScore()
    ensures MapMetacognition(MetacognitionAlmostNone) == 1
  {
    assert MetacognitionAlmostNone == "Almost " + "none" + (" – learners are not" + " asked to reflect" + " or plan");
    ContainsMiddle("Almost ", "none", " – learners are not" + " asked to reflect" + " or plan");
  }

  lemma MetacognitionSometimesScore()
    ensures MapMetacognition(MetacognitionSometimes) == 3
  {
    SometimesReflectionHasNoNone();
    assert MetacognitionSometimes == "Sometimes" + (" – occasional" + " reflection questions" + " or check-ins");
    ContainsPrefix("Sometimes", " – occasional" + " reflection questions" + " or check-ins");
  }

  lemma MetacognitionOftenLacksCapitalS()
    ensures 'S' !in MetacognitionOften
  {
  }

  lemma MetacognitionOftenScore()
    ensures MapMetacognition(MetacognitionOften) == 5
  {
    OftenLearnersHasNoNone();
    MetacognitionOftenLacksCapitalS();
    Lacks(MetacognitionOften, "Sometimes", 0);
  }

  /** The three metacognition options score 1, 3 and 5, in the order they are offered. */
  lemma MetacognitionOptionScores()
    ensures |MetacognitionOptions| == 3
    ensures MapMetacognition(MetacognitionOptions[0]) == 1
    ensures MapMetacognition(MetacognitionOptions[1]) == 3
    ensures MapMetacognition(MetacognitionOptions[2]) == 5
  {
    MetacognitionAlmostNoneScore();
    MetacognitionSometimesScore();
    MetacognitionOftenScore();
  }

  /**
   * "none" needs an 'n', an 'o' and an 'e'; the option is cut, always before a
   * character that is not in "none", into pieces that each miss one of them.
   */
  lemma SometimesReflectionHasNoNone()
    ensures !Contains(MetacognitionSometimes, "none")
  {
    var p := "none";
    Lacks("Sometimes", p, 0);
    AbsentAcrossCut("Sometimes", " – occasional", p, 3);
    AbsentAcrossCut("Sometimes" + " – occasional", " reflect", p, 0);
    AbsentAcrossCut("Sometimes" + " – occasional" + " reflect", "ion", p, 3);
    AbsentAcrossCut("Sometimes" + " – occasional" + " reflect" + "ion", " quest", p, 0);
    AbsentAcrossCut("Sometimes" + " – occasional" + " reflect" + "ion" + " quest", "ions", p, 3);
    AbsentAcrossCut("Sometimes" + " – occasional" + " reflect" + "ion" + " quest" + "ions", " or", p, 0);
    AbsentAcrossCut("Sometimes" + " – occasional" + " reflect" + "ion" + " quest" + "ions" + " or", " check-ins", p, 1);
    SometimesReflectionCuts();
  }

  lemma SometimesReflectionCuts()
    ensures MetacognitionSometimes
         == "Sometimes" + " – occasional" + " reflect" + "ion" + " quest" + "ions" + " or" + " check-ins"
  {
    assert " reflection questions" == " reflect" + "ion" + " quest" + "ions";
    assert " or check-ins" == " or" + " check-ins";
  }

  /** As above, for the "Often" metacognition option. */
  lemma OftenLearnersHasNoNone()
    ensures !Contains(MetacognitionOften, "none")
  {
    var p := "none";
    Lacks("Often – learners", p, 1);
    AbsentAcrossCut("Often – learners", " regularly plan,", p, 1);
    AbsentAcrossCut("Often – learners" + " regularly plan,", " mon", p, 3);
    AbsentAcrossCut("Often – learners" + " regularly plan," + " mon", "itor,", p, 0);
    AbsentAcrossCut("Often – learners" + " regularly plan," + " mon" + "itor,", " and reflect", p, 1);
    AbsentAcrossCut("Often – learners" + " regularly plan," + " mon" + "itor," + " and reflect", " on", p, 3);
    AbsentAcrossCut("Often – learners" + " regularly plan," + " mon" + "itor," + " and reflect" + " on", " learning", p, 1);
    OftenLearnersCuts();
  }

  lemma OftenLearnersCuts()
    ensures MetacognitionOften
         == "Often – learners" + " regularly plan," + " mon" + "itor," + " and reflect" + " on" + " learning"
  {
    assert " monitor, and reflect" == " mon" + "itor," + " and reflect";
    assert " on learning" == " on" + " learning";
  }

  // ---------------------------------------------------------------------------
  // End-to-end answer sets
  // ---------------------------------------------------------------------------

  /** Choosing the last option of every question gives the top score everywhere. */
  lemma StrongestAnswersScore()
    ensures ScoreAnswers(Answers(ScaffoldingOften, IcapDiscuss, FeedbackTargeted,
                                 CollaborationFrequent, MetacognitionOften)) == Profile(5, 5, 5, 5, 5)
  {
    ScaffoldingOptionScores();
    IcapOptionScores();
    FeedbackOptionScores();
    CollaborationOptionScores();
    MetacognitionOptionScores();
  }

  /** Choosing the first option of every question gives the lowest scores: 1, 1, 2, 1, 1. */
  lemma WeakestAnswersScore()
    ensures ScoreAnswers(Answers(ScaffoldingAlmostNever, IcapListen, FeedbackRightWrong,
                                 CollaborationIndividual, MetacognitionAlmostNone)) == Profile(1, 1, 2, 1, 1)
  {
    ScaffoldingOptionScores();
    IcapOptionScores();
    FeedbackOptionScores();
    CollaborationOptionScores();
    MetacognitionOptionScores();
  }
}
