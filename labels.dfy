/**
 * Qualitative labels for a score: the low/moderate/high level used for
 * scaffolding, feedback, collaboration and metacognitive support, and the
 * ICAP engagement mode; plus the display name of an environment.
 */
module Labels {
  import opened Text

  /** The three-way split of a 1..5 score used throughout the narrative. */
  datatype Level = Low | Moderate | High

  function LevelOf(score: int): Level
  {
    if score <= 2 then Low else if score == 3 then Moderate else High
  }

  function LevelName(l: Level): string
  {
    match l
    case Low => "low"
    case Moderate => "moderate"
    case High => "high"
  }

  /** `level_label`: the three words partition the integers at 2 and 3. */
  function LevelLabel(score: int): (r: string)
    ensures r == "low" <==> score <= 2
    ensures r == "moderate" <==> score == 3
    ensures r == "high" <==> score >= 4
    ensures r == LevelName(LevelOf(score))
  {
    if score <= 2 then "low"
    else if score == 3 then "moderate"
    else "high"
  }

  /** The ICAP engagement modes (Chi's Passive, Active, Constructive, Interactive). */
  datatype Mode = Passive | Active | Constructive | Interactive

  function ModeOf(score: int): Mode
  {
    if score <= 1 then Passive
    else if score == 2 then Active
    else if score == 4 then Constructive
    else Interactive
  }

  function ModeName(m: Mode): string
  {
    match m
    case Passive => "Passive (P)"
    case Active => "Active (A)"
    case Constructive => "Constructive (C)"
    case Interactive => "Interactive (I)"
  }

  /**
   * `icap_label`: "Passive" up to 1, "Active" at 2, "Constructive" at 4 and
   * "Interactive" for every other score, 3 and anything above 4 included.
   */
  function IcapLabel(score: int): (r: string)
    ensures r == "Passive (P)" <==> score <= 1
    ensures r == "Active (A)" <==> score == 2
    ensures r == "Constructive (C)" <==> score == 4
    ensures r == "Interactive (I)" <==> score == 3 || score >= 5
    ensures r == ModeName(ModeOf(score))
  {
    if score <= 1 then "Passive (P)"
    else if score == 2 then "Active (A)"
    else if score == 4 then "Constructive (C)"
    else "Interactive (I)"
  }

  /** Two scores get the same word exactly when they fall in the same level. */
  lemma LevelLabelFollowsLevel(a: int, b: int)
    ensures LevelLabel(a) == LevelLabel(b) <==> LevelOf(a) == LevelOf(b)
  {
  }

  /** Two scores get the same ICAP label exactly when they fall in the same mode. */
  lemma IcapLabelFollowsMode(a: int, b: int)
    ensures IcapLabel(a) == IcapLabel(b) <==> ModeOf(a) == ModeOf(b)
  {
  }

  /** `level_label(score).capitalize()`, as the detail blocks show it. */
  lemma CapitalizedLevelLabel(score: int)
    ensures Capitalize(LevelLabel(score)) == if score <= 2 then "Low" else if score == 3 then "Moderate" else "High"
  {
    if score <= 2 {
      CapitalizedLow();
    } else if score == 3 {
      CapitalizedModerate();
    } else {
      CapitalizedHigh();
    }
  }

  lemma CapitalizedLow()
    ensures Capitalize("low") == "Low"
  {
    var c := Capitalize("low");
    assert c[0] == 'L' && c[1] == 'o' && c[2] == 'w';
  }

  lemma CapitalizedModerate()
    ensures Capitalize("moderate") == "Moderate"
  {
    var c := Capitalize("moderate");
    assert c[0] == 'M' && c[1] == 'o' && c[2] == 'd' && c[3] == 'e';
    assert c[4] == 'r' && c[5] == 'a' && c[6] == 't' && c[7] == 'e';
  }

  lemma CapitalizedHigh()
    ensures Capitalize("high") == "High"
  {
    var c := Capitalize("high");
    assert c[0] == 'H' && c[1] == 'i' && c[2] == 'g' && c[3] == 'h';
  }

  const DefaultDisplayName := "This environment"

  lemma DefaultDisplayNameTrimmed()
    ensures DefaultDisplayName != [] && !IsSpace(DefaultDisplayName[0])
    ensures !IsSpace(DefaultDisplayName[|DefaultDisplayName| - 1])
  {
    assert DefaultDisplayName[0] == 'T';
    assert DefaultDisplayName[|DefaultDisplayName| - 1] == 't';
  }

  /**
   * `env_name.strip() if env_name.strip() else "This environment"`: never
   * empty, never padded with whitespace, and the user's own text whenever it
   * has any non-whitespace character.
   */
  function DisplayName(envName: string): (r: string)
    ensures r != [] && !IsSpace(r[0]) && !IsSpace(r[|r| - 1])
    ensures !AllSpace(envName) ==> r == Strip(envName)
    ensures AllSpace(envName) ==> r == DefaultDisplayName
  {
    StripEmptyIff(envName);
    DefaultDisplayNameTrimmed();
    var stripped := Strip(envName);
    if stripped != "" then stripped else DefaultDisplayName
  }
}
