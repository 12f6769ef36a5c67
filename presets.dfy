/**
 * The preset catalogue: three example learning environments with fixed
 * design-principle scores, and the explanation shown for the chosen one,
 * picked by substring tests on its name.
 */
module Presets {
  import opened Text
  import opened Scoring

  datatype Option<T> = None | Some(value: T)

  const TraditionalName := "Traditional" + " computer-assisted" + " (Class 1)"
  const NoTeacherName := "GenAI-assisted, " + "no teacher" + " (Class 2)"
  /** Written as the two pieces around which "no teacher" is shown absent. */
  const SupervisedName := "GenAI + teacher " + "supervision (Class 3)"

  /** The presets in the order the selector lists them, each with its five scores. */
  const Environments := [
    (TraditionalName, Profile(3, 2, 3, 2, 2)),
    (NoTeacherName, Profile(1, 2, 2, 1, 1)),
    (SupervisedName, Profile(4, 4, 4, 2, 3))
  ]

  /** The score of a profile stays on the 1..5 scale. */
  predicate InRange(p: Profile)
  {
    forall k :: 0 <= k < |Entries(p)| ==> 1 <= Entries(p)[k].1 <= 5
  }

  /**
   * The catalogue has three presets with distinct names; every preset lists the
   * five principles in the same order, each scored between 1 and 5.
   */
  lemma CatalogueShape()
    ensures |Environments| == 3
    ensures forall i, j :: 0 <= i < j < |Environments| ==> Environments[i].0 != Environments[j].0
    ensures forall i :: 0 <= i < |Environments| ==>
              |Entries(Environments[i].1)| == 5 &&
              (forall k :: 0 <= k < 5 ==> Entries(Environments[i].1)[k].0 == PrincipleNames[k])
    ensures forall i :: 0 <= i < |Environments| ==> InRange(Environments[i].1)
  {
    assert |TraditionalName| == 39 && |NoTeacherName| == 36 && |SupervisedName| == 37;
  }

  /** The first preset in the table with the given name, if any: a dictionary lookup. */
  function Lookup(table: seq<(string, Profile)>, name: string): (r: Option<Profile>)
    ensures r.Some? <==> exists i :: 0 <= i < |table| && table[i].0 == name
    ensures r.Some? ==> exists i :: 0 <= i < |table| && table[i] == (name, r.value)
  {
    if table == [] then None
    else if table[0].0 == name then Some(table[0].1)
    else
      var rest := Lookup(table[1..], name);
      assert forall i :: 1 <= i < |table| ==> table[i] == table[1..][i - 1];
      rest
  }

  /** Looking up a preset's own name gives that preset's scores. */
  lemma LookupFindsPresets()
    ensures Lookup(Environments, TraditionalName) == Some(Profile(3, 2, 3, 2, 2))
    ensures Lookup(Environments, NoTeacherName) == Some(Profile(1, 2, 2, 1, 1))
    ensures Lookup(Environments, SupervisedName) == Some(Profile(4, 4, 4, 2, 3))
  {
    assert |TraditionalName| == 39 && |NoTeacherName| == 36 && |SupervisedName| == 37;
    assert Environments[0].0 != NoTeacherName && Environments[0].0 != SupervisedName;
    assert Environments[1..] == [(NoTeacherName, Profile(1, 2, 2, 1, 1)), (SupervisedName, Profile(4, 4, 4, 2, 3))];
    var tail := Environments[1..][1..];
    assert tail == [(SupervisedName, Profile(4, 4, 4, 2, 3))];
    assert Lookup(tail, SupervisedName) == Some(Profile(4, 4, 4, 2, 3));
    assert Environments[1..][0].0 != SupervisedName;
    assert Lookup(Environments[1..], SupervisedName) == Lookup(tail, SupervisedName);
  }

  // ---------------------------------------------------------------------------
  // `explain_preset`
  // ---------------------------------------------------------------------------

  /** Which of the three explanations a name selects. */
  datatype Branch = TraditionalBranch | NoTeacherBranch | SupervisedBranch

  /** "Traditional" is tested first, then "no teacher"; anything else falls to the supervised text. */
  function BranchOf(name: string): (b: Branch)
    ensures b == TraditionalBranch <==> Contains(name, "Traditional")
    ensures b == NoTeacherBranch <==> !Contains(name, "Traditional") && Contains(name, "no teacher")
    ensures b == SupervisedBranch <==> !Contains(name, "Traditional") && !Contains(name, "no teacher")
  {
    if Contains(name, "Traditional") then TraditionalBranch
    else if Contains(name, "no teacher") then NoTeacherBranch
    else SupervisedBranch
  }

  const TraditionalExplanation :=
    "\n                **This" + " environment** uses" + " teacher-led" + " computer-assisted" +
    " instruction." + "  \n                -" + " Engagement is mostly" +
    " **Passive/Active** (ICAP \U{2248}" + " 2).  \n                -" +
    " There is some scaffolding" + " and feedback, but it\U{2019}s not" + " tightly structured." +
    "  \n                -" + " Metacognition and" + " collaboration are limited." +
    "\n                \n                **Possible" + " improvement:** Add" +
    " structured prompts that ask" + " students to explain," + "\n                justify, or" +
    " predict (moving toward" + " **Constructive**" + " engagement)." + "\n                "

  const NoTeacherExplanation :=
    "\n                **This" + " environment** relies on" + " generative AI without" +
    " teacher supervision." + "  \n                -" + " Scaffolding is almost" + " **absent**." +
    "  \n                -" + " Engagement stays mostly" + " **Active**" + " (reading/clicking)." +
    "  \n                -" + " Feedback quality and" + " metacognitive support are" +
    " low.  \n                -" + " There is almost no" + " collaboration." +
    "\n                \n                **Risk:**" + " Students may be satisfied" +
    " but misled or" + " under-challenged." + "  \n                **Possible" +
    " improvement:** Add teacher" + " or AI-generated" + " metacognitive prompts and" +
    "\n                monitoring" + " to diagnose misconceptions." + "\n                "

  const SupervisedExplanation :=
    "\n                **This" + " environment** combines" + " generative AI with active" +
    " teacher supervision." + "  \n                -" + " Scaffolding and feedback" +
    " quality are **high**." + "  \n                - ICAP" + " engagement moves toward" +
    " **Constructive/Interactive**." + "  \n                -" + " Students show higher" +
    " engagement and mastery." + "\n                \n                **Remaining" +
    " gaps:**  \n                -" + " Collaboration is still" + " limited." +
    "  \n                -" + " Metacognitive support is" + " not fully explicit." +
    "\n                \n                **Possible" + " improvement:** Design" +
    " explicit reflection prompts" + " and peer discussion" + "\n                around AI" +
    " outputs.\n                "

  function BranchText(b: Branch): string
  {
    match b
    case TraditionalBranch => TraditionalExplanation
    case NoTeacherBranch => NoTeacherExplanation
    case SupervisedBranch => SupervisedExplanation
  }

  /**
   * `explain_preset(env_name)`: the markdown it renders for that name. The
   * three texts are different, so the text shown tells which test decided.
   */
  function ExplainPreset(name: string): (r: string)
    ensures r == TraditionalExplanation <==> Contains(name, "Traditional")
    ensures r == NoTeacherExplanation <==> !Contains(name, "Traditional") && Contains(name, "no teacher")
    ensures r == SupervisedExplanation <==> !Contains(name, "Traditional") && !Contains(name, "no teacher")
  {
    ExplanationLengths();
    BranchText(BranchOf(name))
  }

  /** Two names get the same explanation exactly when they select the same branch. */
  lemma ExplanationFollowsBranch(a: string, b: string)
    ensures ExplainPreset(a) == ExplainPreset(b) <==> BranchOf(a) == BranchOf(b)
  {
    ExplanationLengths();
  }

  lemma ExplanationLengths()
    ensures |TraditionalExplanation| == 525 && |NoTeacherExplanation| == 616 && |SupervisedExplanation| == 640
  {
    TraditionalExplanationLength();
    NoTeacherExplanationLength();
    SupervisedExplanationLength();
  }

  lemma TraditionalExplanationLength()
    ensures |TraditionalExplanation| == 525
  {
  }

  lemma NoTeacherExplanationLength()
    ensures |NoTeacherExplanation| == 616
  {
  }

  lemma SupervisedExplanationLength()
    ensures |SupervisedExplanation| == 640
  {
  }

  lemma TraditionalNameBranch()
    ensures BranchOf(TraditionalName) == TraditionalBranch
  {
    ContainsPrefix("Traditional", " computer-assisted" + " (Class 1)");
    assert TraditionalName == "Traditional" + (" computer-assisted" + " (Class 1)");
  }

  lemma NoTeacherNameBranch()
    ensures BranchOf(NoTeacherName) == NoTeacherBranch
  {
    assert 'T' !in NoTeacherName;
    Lacks(NoTeacherName, "Traditional", 0);
    ContainsMiddle("GenAI-assisted, ", "no teacher", " (Class 2)");
  }

  lemma SupervisedNameLacksTraditional()
    ensures !Contains(SupervisedName, "Traditional")
  {
    assert 'T' !in SupervisedName;
    Lacks(SupervisedName, "Traditional", 0);
  }

  /** "no teacher" is cut at the space before "supervision": no 'o' before it, no 't' after it. */
  lemma SupervisedNameLacksNoTeacher()
    ensures !Contains(SupervisedName, "no teacher")
  {
    assert 'o' !in "GenAI + teacher ";
    Lacks("GenAI + teacher ", "no teacher", 1);
    assert 't' !in "supervision (Class 3)";
    AbsentAcrossCut("GenAI + teacher ", "supervision (Class 3)", "no teacher", 3);
  }

  lemma SupervisedNameBranch()
    ensures BranchOf(SupervisedName) == SupervisedBranch
  {
    SupervisedNameLacksTraditional();
    SupervisedNameLacksNoTeacher();
  }

  /** Each preset's own name selects the explanation written for it. */
  lemma PresetsSelectOwnExplanation()
    ensures ExplainPreset(TraditionalName) == TraditionalExplanation
    ensures ExplainPreset(NoTeacherName) == NoTeacherExplanation
    ensures ExplainPreset(SupervisedName) == SupervisedExplanation
  {
    TraditionalPresetExplained();
    NoTeacherPresetExplained();
    SupervisedPresetExplained();
  }

  lemma TraditionalPresetExplained()
    ensures ExplainPreset(TraditionalName) == TraditionalExplanation
  {
    TraditionalNameBranch();
  }

  lemma NoTeacherPresetExplained()
    ensures ExplainPreset(NoTeacherName) == NoTeacherExplanation
  {
    NoTeacherNameBranch();
  }

  lemma SupervisedPresetExplained()
    ensures ExplainPreset(SupervisedName) == SupervisedExplanation
  {
    SupervisedNameBranch();
  }
}
