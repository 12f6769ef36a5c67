/**
 * The feedback the analyzer composes from a profile: the three-part impact
 * paragraph, the ICAP explanation, the per-principle detail blocks with their
 * threshold-picked bullets, the one-line summary and the compact
 * interpretation. The improvement list is in `Improvements` and the
 * plain-text export in `Report`.
 *
 * Prose constants are written as concatenations of short pieces cut at word
 * boundaries; each constant's value is the sentence exactly.
 */
module Narrative {
  import opened Text
  import opened Labels
  import opened Scoring

  // ---------------------------------------------------------------------------
  // Impact on learning
  // ---------------------------------------------------------------------------

  const PassiveImpact :=
    "students mainly receive" + " information passively, so" + " knowledge may remain inert" +
    " and hard to transfer."
  const ActiveImpact :=
    "students are active but not" + " generative, so they may" + " complete tasks without" +
    " fully understanding" + " underlying concepts."
  const ConstructiveImpact :=
    "students engage" + " constructively, which" + " usually supports deeper" +
    " understanding and" + " integration of ideas."
  const InteractiveImpact :=
    "students engage" + " interactively, which often" + " supports co-construction of" +
    " ideas and deeper learning."

  const LowScaffoldingImpact :=
    "Because scaffolding is low," + " struggling learners may not" +
    " get enough adaptive support" + " and can stay confused or" + " fall behind."
  const ModerateScaffoldingImpact :=
    "With moderate scaffolding," + " some learners receive help," + " but support might not" +
    " always be contingent or" + " faded over time."
  const HighScaffoldingImpact :=
    "High scaffolding can help" + " keep learners in their zone" + " of proximal development, as" +
    " long as support is" + " gradually faded to build" + " independence."

  const LowMetacognitionImpact :=
    "Low metacognitive support" + " means students have fewer" + " opportunities to plan," +
    " monitor, and reflect, which" + " can limit long-term" + " self-regulation."
  const ModerateMetacognitionImpact :=
    "Some metacognitive support" + " is present, but making" + " reflection more regular and" +
    " strategy-focused could" + " strengthen durable" + " learning."
  const HighMetacognitionImpact :=
    "Strong metacognitive support" + " can help learners take more" +
    " ownership of their learning" + " and transfer strategies to" + " new contexts."

  /** The impact sentence for each engagement mode. */
  function IcapImpact(m: Mode): string
  {
    match m
    case Passive => PassiveImpact
    case Active => ActiveImpact
    case Constructive => ConstructiveImpact
    case Interactive => InteractiveImpact
  }

  /** The impact sentence for each scaffolding level. */
  function ScaffoldingImpact(l: Level): string
  {
    match l
    case Low => LowScaffoldingImpact
    case Moderate => ModerateScaffoldingImpact
    case High => HighScaffoldingImpact
  }

  /** The impact sentence for each metacognitive-support level. */
  function MetacognitionImpact(l: Level): string
  {
    match l
    case Low => LowMetacognitionImpact
    case Moderate => ModerateMetacognitionImpact
    case High => HighMetacognitionImpact
  }

  /** What the impact list holds: one sentence for each of ICAP, scaffolding and metacognition, in that order. */
  function ImpactFragments(icap: int, scaff: int, meta: int): seq<string>
  {
    [IcapImpact(ModeOf(icap)), ScaffoldingImpact(LevelOf(scaff)), MetacognitionImpact(LevelOf(meta))]
  }

  /**
   * `impact_parts`: three appends, each picked by its own chain of score
   * thresholds; the result is the ICAP, scaffolding and metacognition
   * sentences for the modes and levels the labels assign.
   */
  method ImpactParts(icap: int, scaff: int, meta: int) returns (parts: seq<string>)
    ensures |parts| == 3 && parts[0] == IcapImpact(ModeOf(icap))
    ensures parts[1] == ScaffoldingImpact(LevelOf(scaff)) && parts[2] == MetacognitionImpact(LevelOf(meta))
  {
    parts := [];
    if icap <= 1 {
      parts := parts + [PassiveImpact];
    } else if icap == 2 {
      parts := parts + [ActiveImpact];
    } else if icap == 4 {
      parts := parts + [ConstructiveImpact];
    } else {
      parts := parts + [InteractiveImpact];
    }
    assert |parts| == 1 && parts[0] == IcapImpact(ModeOf(icap));
    if scaff <= 2 {
      parts := parts + [LowScaffoldingImpact];
    } else if scaff == 3 {
      parts := parts + [ModerateScaffoldingImpact];
    } else {
      parts := parts + [HighScaffoldingImpact];
    }
    assert |parts| == 2 && parts[0] == IcapImpact(ModeOf(icap)) && parts[1] == ScaffoldingImpact(LevelOf(scaff));
    if meta <= 2 {
      parts := parts + [LowMetacognitionImpact];
    } else if meta == 3 {
      parts := parts + [ModerateMetacognitionImpact];
    } else {
      parts := parts + [HighMetacognitionImpact];
    }
  }

  /** `" ".join(impact_parts)`: the three sentences separated by single spaces. */
  function ImpactText(icap: int, scaff: int, meta: int): (r: string)
    ensures r == IcapImpact(ModeOf(icap)) + " " + ScaffoldingImpact(LevelOf(scaff)) + " " + MetacognitionImpact(LevelOf(meta))
  {
    JoinThree(IcapImpact(ModeOf(icap)), ScaffoldingImpact(LevelOf(scaff)), MetacognitionImpact(LevelOf(meta)), " ");
    Join(ImpactFragments(icap, scaff, meta), " ")
  }

  /** Different modes get different ICAP sentences. */
  lemma IcapImpactInjective(m1: Mode, m2: Mode)
    ensures IcapImpact(m1) == IcapImpact(m2) <==> m1 == m2
  {
    assert |PassiveImpact| == 98 && |ActiveImpact| == 115 && |ConstructiveImpact| == 101 && |InteractiveImpact| == 97;
  }

  /** Different levels get different scaffolding sentences. */
  lemma ScaffoldingImpactInjective(l1: Level, l2: Level)
    ensures ScaffoldingImpact(l1) == ScaffoldingImpact(l2) <==> l1 == l2
  {
    assert |LowScaffoldingImpact| == 121 && |ModerateScaffoldingImpact| == 117 && |HighScaffoldingImpact| == 139;
  }

  /** Different levels get different metacognition sentences. */
  lemma MetacognitionImpactInjective(l1: Level, l2: Level)
    ensures MetacognitionImpact(l1) == MetacognitionImpact(l2) <==> l1 == l2
  {
    assert |LowMetacognitionImpact| == 139 && |ModerateMetacognitionImpact| == 129 && |HighMetacognitionImpact| == 125;
  }

  /**
   * The impact list tells scores apart exactly as the labels do: two score
   * triples give the same sentences if and only if they get the same ICAP
   * label and the same scaffolding and metacognition levels.
   */
  lemma ImpactFragmentsFollowLabels(i1: int, s1: int, m1: int, i2: int, s2: int, m2: int)
    ensures ImpactFragments(i1, s1, m1) == ImpactFragments(i2, s2, m2)
        <==> IcapLabel(i1) == IcapLabel(i2) && LevelLabel(s1) == LevelLabel(s2) && LevelLabel(m1) == LevelLabel(m2)
  {
    IcapImpactInjective(ModeOf(i1), ModeOf(i2));
    ScaffoldingImpactInjective(LevelOf(s1), LevelOf(s2));
    MetacognitionImpactInjective(LevelOf(m1), LevelOf(m2));
    IcapLabelFollowsMode(i1, i2);
    LevelLabelFollowsLevel(s1, s2);
    LevelLabelFollowsLevel(m1, m2);
    var f, g := ImpactFragments(i1, s1, m1), ImpactFragments(i2, s2, m2);
    assert f == g <==> f[0] == g[0] && f[1] == g[1] && f[2] == g[2];
  }

  /** Every ICAP sentence begins with "students", so the capitalized paragraph begins with "S" and is otherwise unchanged. */
  lemma CapitalizedImpact(icap: int, scaff: int, meta: int)
    ensures CapitalizeFirst(ImpactText(icap, scaff, meta)) == "S" + ImpactText(icap, scaff, meta)[1..]
  {
    var first := IcapImpact(ModeOf(icap));
    assert first[0] == 's';
    assert ImpactText(icap, scaff, meta)[0] == first[0];
  }

  // ---------------------------------------------------------------------------
  // The ICAP explanation
  // ---------------------------------------------------------------------------

  const PassiveExplanation :=
    "Engagement is mostly" + " **Passive** (ICAP: P)." + " Learners receive" +
    " information but don’t" + " manipulate or generate" + " ideas."
  const ActiveExplanation :=
    "Engagement is mostly" + " **Active** (ICAP: A)." + " Learners do tasks, but" +
    " rarely generate new ideas."
  const ConstructiveExplanation :=
    "Engagement is mostly" + " **Constructive** (ICAP: C)." + " Learners explain, justify," +
    " or create, which supports" + " deeper learning."
  const InteractiveExplanation :=
    "Engagement is mostly" + " **Interactive** (ICAP: I)." + " Learners co-construct ideas" +
    " through dialogue and" + " collaboration."

  function IcapExplanation(m: Mode): string
  {
    match m
    case Passive => PassiveExplanation
    case Active => ActiveExplanation
    case Constructive => ConstructiveExplanation
    case Interactive => InteractiveExplanation
  }

  /** `icap_text`: its own threshold chain, which picks the explanation of the mode `icap_label` names. */
  function IcapText(icap: int): (r: string)
    ensures r == IcapExplanation(ModeOf(icap))
  {
    if icap <= 1 then PassiveExplanation
    else if icap == 2 then ActiveExplanation
    else if icap == 4 then ConstructiveExplanation
    else InteractiveExplanation
  }

  /** Two scores get the same explanation exactly when they get the same ICAP label. */
  lemma IcapTextFollowsLabel(a: int, b: int)
    ensures IcapText(a) == IcapText(b) <==> IcapLabel(a) == IcapLabel(b)
  {
    IcapLabelFollowsMode(a, b);
    assert |PassiveExplanation| == 112 && |ActiveExplanation| == 92;
    assert |ConstructiveExplanation| == 118 && |InteractiveExplanation| == 111;
  }

  // ---------------------------------------------------------------------------
  // Detail blocks
  // ---------------------------------------------------------------------------

  /** The three conditional bullets of a block, in order: one per level, empty unless its threshold holds. */
  function ConditionalBullets(score: int, low: string, moderate: string, high: string): seq<string>
  {
    [if score <= 2 then low else "", if score == 3 then moderate else "", if score >= 4 then high else ""]
  }

  function LevelIndex(l: Level): nat
  {
    match l
    case Low => 0
    case Moderate => 1
    case High => 2
  }

  function Pick(l: Level, low: string, moderate: string, high: string): string
  {
    match l
    case Low => low
    case Moderate => moderate
    case High => high
  }

  /** With three non-empty bullets, exactly one is shown: the one for the score's level. */
  lemma ExactlyOneBullet(score: int, low: string, moderate: string, high: string)
    requires low != "" && moderate != "" && high != ""
    ensures forall j :: 0 <= j < 3 ==> (ConditionalBullets(score, low, moderate, high)[j] != "" <==> j == LevelIndex(LevelOf(score)))
  {
  }

  /** The three conditional bullets printed one after the other show the bullet of the score's level. */
  function BulletText(score: int, low: string, moderate: string, high: string): (r: string)
    ensures r == Pick(LevelOf(score), low, moderate, high)
  {
    var c := ConditionalBullets(score, low, moderate, high);
    c[0] + c[1] + c[2]
  }

  /** `- Score: {score}/5 ({name})`. */
  function ScoreLine(score: int, name: string): string
  {
    "- Score: " + IntToString(score) + "/5 (" + name + ")"
  }

  /** After its fixed nine-character head, a score line is the number, a slash, and `5 (label)`. */
  lemma ScoreLineShape(score: int, name: string)
    ensures |ScoreLine(score, name)| >= 9
    ensures ScoreLine(score, name)[9..] == IntToString(score) + ['/'] + ("5 (" + name + ")")
  {
    var x := IntToString(score);
    assert ScoreLine(score, name) == "- Score: " + (x + ['/'] + ("5 (" + name + ")"));
  }

  /** A score line gives back both the score and the label it was made from. */
  lemma ScoreLineInjective(a: int, la: string, b: int, lb: string)
    ensures ScoreLine(a, la) == ScoreLine(b, lb) <==> a == b && la == lb
  {
    if ScoreLine(a, la) == ScoreLine(b, lb) {
      ScoreLineShape(a, la);
      ScoreLineShape(b, lb);
      IntToStringNoSlash(a);
      IntToStringNoSlash(b);
      SplitAtFirst(IntToString(a), "5 (" + la + ")", IntToString(b), "5 (" + lb + ")", '/');
      IntToStringInjective(a, b);
      var u, v := "5 (" + la + ")", "5 (" + lb + ")";
      assert la == u[3..|u| - 1] && lb == v[3..|v| - 1];
    }
  }

  function CapitalLevelName(l: Level): string
  {
    match l
    case Low => "Low"
    case Moderate => "Moderate"
    case High => "High"
  }

  /**
   * The block of a low/moderate/high principle: its bold title, its score
   * with the capitalized level, and the bullet of that level alone.
   */
  function LevelBlock(title: string, score: int, low: string, moderate: string, high: string): (r: string)
    ensures r == "**" + title + "**  \n" + ScoreLine(score, CapitalLevelName(LevelOf(score))) + "  \n"
                 + Pick(LevelOf(score), low, moderate, high)
  {
    CapitalizedLevelLabel(score);
    "**" + title + "**  \n" + ScoreLine(score, Capitalize(LevelLabel(score))) + "  \n" + BulletText(score, low, moderate, high)
  }

  const LowScaffoldingBullet :=
    "• Low scaffolding. Consider" + " adding more adaptive" + " teacher or peer support."
  const ModerateScaffoldingBullet :=
    "• Moderate scaffolding. You" + " might make support more" + " clearly contingent and plan" +
    " for fading over time."
  const HighScaffoldingBullet :=
    "• Strong scaffolding." + " Support seems adaptive;" + " consider planning how it" +
    " fades to build" + " independence."

  const LowFeedbackBullet :=
    "• Feedback is mostly" + " evaluative. Adding" + " explanations linked to" +
    " misconceptions could deepen" + " learning."
  const ModerateFeedbackBullet :=
    "• Feedback is somewhat" + " explanatory. You could" + " align it more closely with" +
    " specific errors or" + " strategies."
  const HighFeedbackBullet :=
    "• Feedback appears highly" + " diagnostic and explanatory," + " which is ideal for" +
    " learning."

  const LowCollaborationBullet :=
    "• Mostly individual." + " Consider adding structured" + " pair or group activities."
  const ModerateCollaborationBullet :=
    "• Some collaboration. You" + " might add roles, shared" + " artifacts, or norms to" +
    " deepen it."
  const HighCollaborationBullet :=
    "• Collaboration seems well" + " integrated. Check that it" + " supports real" +
    " co-construction, not just" + " dividing work."

  const LowMetacognitionBullet :=
    "• Little or no" + " metacognition. You could" + " add prompts to plan," +
    " monitor, or reflect on" + " learning."
  const ModerateMetacognitionBullet :=
    "• Some reflection. Making it" + " more regular and tied to" + " strategies could help."
  const HighMetacognitionBullet :=
    "• Strong metacognitive" + " support. Learners are" + " regularly guided to reflect" +
    " and self-regulate."

  /** The scaffolding block: bold title, score with the capitalised level, and that level's bullet. */
  function ScaffoldingDetails(scaff: int): (r: string)
    ensures r == "**" + PrincipleNames[0] + "**  \n" + ScoreLine(scaff, CapitalLevelName(LevelOf(scaff))) + "  \n"
                 + Pick(LevelOf(scaff), LowScaffoldingBullet, ModerateScaffoldingBullet, HighScaffoldingBullet)
  {
    LevelBlock(PrincipleNames[0], scaff, LowScaffoldingBullet, ModerateScaffoldingBullet, HighScaffoldingBullet)
  }

  /** Of the scaffolding block's three conditional bullets exactly one is non-empty: the one for the score's level. */
  lemma ScaffoldingBulletsExactlyOne(score: int)
    ensures forall j :: 0 <= j < 3 ==>
              (ConditionalBullets(score, LowScaffoldingBullet, ModerateScaffoldingBullet, HighScaffoldingBullet)[j] != ""
               <==> j == LevelIndex(LevelOf(score)))
  {
    ExactlyOneBullet(score, LowScaffoldingBullet, ModerateScaffoldingBullet, HighScaffoldingBullet);
  }

  /** The ICAP block: its score with the mode label, then the explanation as its only bullet. */
  function IcapDetails(icap: int): (r: string)
    ensures r == "**" + PrincipleNames[1] + "**  \n" + ScoreLine(icap, ModeName(ModeOf(icap))) + "  \n• "
                 + IcapExplanation(ModeOf(icap))
  {
    "**" + PrincipleNames[1] + "**  \n" + ScoreLine(icap, IcapLabel(icap)) + "  \n• " + IcapText(icap)
  }

  /** The feedback block: bold title, score with the capitalised level, and that level's bullet. */
  function FeedbackDetails(feed: int): (r: string)
    ensures r == "**" + PrincipleNames[2] + "**  \n" + ScoreLine(feed, CapitalLevelName(LevelOf(feed))) + "  \n"
                 + Pick(LevelOf(feed), LowFeedbackBullet, ModerateFeedbackBullet, HighFeedbackBullet)
  {
    LevelBlock(PrincipleNames[2], feed, LowFeedbackBullet, ModerateFeedbackBullet, HighFeedbackBullet)
  }

  /** Of the feedback block's three conditional bullets exactly one is non-empty: the one for the score's level. */
  lemma FeedbackBulletsExactlyOne(score: int)
    ensures forall j :: 0 <= j < 3 ==>
              (ConditionalBullets(score, LowFeedbackBullet, ModerateFeedbackBullet, HighFeedbackBullet)[j] != ""
               <==> j == LevelIndex(LevelOf(score)))
  {
    ExactlyOneBullet(score, LowFeedbackBullet, ModerateFeedbackBullet, HighFeedbackBullet);
  }

  /** The collaboration block: bold title, score with the capitalised level, and that level's bullet. */
  function CollaborationDetails(collab: int): (r: string)
    ensures r == "**" + PrincipleNames[3] + "**  \n" + ScoreLine(collab, CapitalLevelName(LevelOf(collab))) + "  \n"
                 + Pick(LevelOf(collab), LowCollaborationBullet, ModerateCollaborationBullet, HighCollaborationBullet)
  {
    LevelBlock(PrincipleNames[3], collab, LowCollaborationBullet, ModerateCollaborationBullet, HighCollaborationBullet)
  }

  /** Of the collaboration block's three conditional bullets exactly one is non-empty: the one for the score's level. */
  lemma CollaborationBulletsExactlyOne(score: int)
    ensures forall j :: 0 <= j < 3 ==>
              (ConditionalBullets(score, LowCollaborationBullet, ModerateCollaborationBullet, HighCollaborationBullet)[j] != ""
               <==> j == LevelIndex(LevelOf(score)))
  {
    ExactlyOneBullet(score, LowCollaborationBullet, ModerateCollaborationBullet, HighCollaborationBullet);
  }

  /** The metacognition block: bold title, score with the capitalised level, and that level's bullet. */
  function MetacognitionDetails(meta: int): (r: string)
    ensures r == "**" + PrincipleNames[4] + "**  \n" + ScoreLine(meta, CapitalLevelName(LevelOf(meta))) + "  \n"
                 + Pick(LevelOf(meta), LowMetacognitionBullet, ModerateMetacognitionBullet, HighMetacognitionBullet)
  {
    LevelBlock(PrincipleNames[4], meta, LowMetacognitionBullet, ModerateMetacognitionBullet, HighMetacognitionBullet)
  }

  /** Of the metacognition block's three conditional bullets exactly one is non-empty: the one for the score's level. */
  lemma MetacognitionBulletsExactlyOne(score: int)
    ensures forall j :: 0 <= j < 3 ==>
              (ConditionalBullets(score, LowMetacognitionBullet, ModerateMetacognitionBullet, HighMetacognitionBullet)[j] != ""
               <==> j == LevelIndex(LevelOf(score)))
  {
    ExactlyOneBullet(score, LowMetacognitionBullet, ModerateMetacognitionBullet, HighMetacognitionBullet);
  }

  // ---------------------------------------------------------------------------
  // Summary line
  // ---------------------------------------------------------------------------

  /** Markdown bold. */
  function Bold(s: string): string
  {
    "**" + s + "**"
  }

  /** The one-line summary: the environment's name, its ICAP label and its scaffolding and metacognition levels, in bold. */
  function SummaryLine(name: string, icap: int, scaff: int, meta: int): (r: string)
    ensures r == Bold("Summary:") + " " + name + " appears mostly " + Bold(ModeName(ModeOf(icap)))
                 + " with " + Bold(LevelName(LevelOf(scaff)) + " scaffolding")
                 + " and " + Bold(LevelName(LevelOf(meta)) + " metacognitive support") + "."
  {
    Bold("Summary:") + " " + name + " appears mostly " + Bold(IcapLabel(icap)) + " with " + Bold(LevelLabel(scaff) + " scaffolding")
    + " and " + Bold(LevelLabel(meta) + " metacognitive support") + "."
  }

  /** The summary opens with the bold heading and the environment's name. */
  lemma SummaryLineOpensWithName(name: string, icap: int, scaff: int, meta: int)
    ensures StartsWith(SummaryLine(name, icap, scaff, meta), "**Summary:** " + name + " appears mostly ")
  {
    var head := Bold("Summary:") + " " + name + " appears mostly ";
    var mode := Bold(IcapLabel(icap));
    var scaffolding := Bold(LevelLabel(scaff) + " scaffolding");
    var metacognition := Bold(LevelLabel(meta) + " metacognitive support");
    EndsAndStarts(head, mode);
    StartsExtendRight(head + mode, " with ", head);
    StartsExtendRight(head + mode + " with ", scaffolding, head);
    StartsExtendRight(head + mode + " with " + scaffolding, " and ", head);
    StartsExtendRight(head + mode + " with " + scaffolding + " and ", metacognition, head);
    StartsExtendRight(head + mode + " with " + scaffolding + " and " + metacognition, ".", head);
    assert Bold("Summary:") + " " == "**Summary:** ";
  }

  /** The summary names the ICAP mode of the engagement score, in bold. */
  lemma SummaryLineNamesMode(name: string, icap: int, scaff: int, meta: int)
    ensures Contains(SummaryLine(name, icap, scaff, meta), Bold(ModeName(ModeOf(icap))))
  {
    var head := Bold("Summary:") + " " + name + " appears mostly ";
    var mode := Bold(IcapLabel(icap));
    var scaffolding := Bold(LevelLabel(scaff) + " scaffolding");
    var metacognition := Bold(LevelLabel(meta) + " metacognitive support");
    ContainsSuffix(head, mode);
    ContainsExtendRight(head + mode, " with ", mode);
    ContainsExtendRight(head + mode + " with ", scaffolding, mode);
    ContainsExtendRight(head + mode + " with " + scaffolding, " and ", mode);
    ContainsExtendRight(head + mode + " with " + scaffolding + " and ", metacognition, mode);
    ContainsExtendRight(head + mode + " with " + scaffolding + " and " + metacognition, ".", mode);
  }

  /** The summary names the scaffolding level, in bold with its noun. */
  lemma SummaryLineNamesScaffolding(name: string, icap: int, scaff: int, meta: int)
    ensures Contains(SummaryLine(name, icap, scaff, meta), Bold(LevelName(LevelOf(scaff)) + " scaffolding"))
  {
    var head := Bold("Summary:") + " " + name + " appears mostly ";
    var mode := Bold(IcapLabel(icap));
    var scaffolding := Bold(LevelLabel(scaff) + " scaffolding");
    var metacognition := Bold(LevelLabel(meta) + " metacognitive support");
    ContainsSuffix(head + mode + " with ", scaffolding);
    ContainsExtendRight(head + mode + " with " + scaffolding, " and ", scaffolding);
    ContainsExtendRight(head + mode + " with " + scaffolding + " and ", metacognition, scaffolding);
    ContainsExtendRight(head + mode + " with " + scaffolding + " and " + metacognition, ".", scaffolding);
  }

  /** The summary names the metacognitive-support level, in bold with its noun. */
  lemma SummaryLineNamesMetacognition(name: string, icap: int, scaff: int, meta: int)
    ensures Contains(SummaryLine(name, icap, scaff, meta), Bold(LevelName(LevelOf(meta)) + " metacognitive support"))
  {
    var head := Bold("Summary:") + " " + name + " appears mostly ";
    var mode := Bold(IcapLabel(icap));
    var scaffolding := Bold(LevelLabel(scaff) + " scaffolding");
    var metacognition := Bold(LevelLabel(meta) + " metacognitive support");
    ContainsSuffix(head + mode + " with " + scaffolding + " and ", metacognition);
    ContainsExtendRight(head + mode + " with " + scaffolding + " and " + metacognition, ".", metacognition);
  }

  // ---------------------------------------------------------------------------
  // The compact interpretation
  // ---------------------------------------------------------------------------

  /** One section of the plain-text interpretation: a title line and its body line(s). */
  function Section(title: string, body: string): string
  {
    title + ":\n" + body + "\n"
  }

  /** The five sections of `interpretation_text`, in profile order; the ICAP one carries its explanation as a second line. */
  function InterpretationSections(p: Profile): seq<string>
  {
    [ Section(PrincipleNames[0], ScoreLine(p.scaffolding, LevelLabel(p.scaffolding))),
      Section(PrincipleNames[1], ScoreLine(p.icap, IcapLabel(p.icap)) + "\n- " + IcapText(p.icap)),
      Section(PrincipleNames[2], ScoreLine(p.feedback, LevelLabel(p.feedback))),
      Section(PrincipleNames[3], ScoreLine(p.collaboration, LevelLabel(p.collaboration))),
      Section(PrincipleNames[4], ScoreLine(p.metacognition, LevelLabel(p.metacognition))) ]
  }

  /** `interpretation_text`: the five sections one after the other, in profile order. */
  function InterpretationText(p: Profile): (r: string)
    ensures Consecutive(r, InterpretationSections(p))
  {
    var ss := InterpretationSections(p);
    ConsecutiveFive(ss[0], ss[1], ss[2], ss[3], ss[4]);
    assert [ss[0], ss[1], ss[2], ss[3], ss[4]] == ss;
    ss[0] + ss[1] + ss[2] + ss[3] + ss[4]
  }
}
