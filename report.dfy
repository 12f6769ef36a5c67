/**
 * The plain-text export: a title with the environment's display name, the
 * five scores with their labels, then the summary, the impact paragraph, the
 * interpretation and the improvement paragraph under their own headings.
 */
module Report {
  import opened Text
  import opened Labels
  import opened Scoring
  import opened Narrative
  import opened Improvements

  /** The export's first line and the blank line after it. */
  function Title(name: string): string
  {
    "Learning Environment Analysis \U{2013} " + name + "\n\n"
  }

  /** One score line of the export's profile: title, score out of 5 and its label. */
  function ProfileLine(title: string, score: int, name: string): string
  {
    title + ": " + IntToString(score) + "/5 (" + name + ")\n"
  }

  /** The five score lines, in profile order: ICAP with its mode label and the others with their level. */
  function ProfileLines(p: Profile): seq<string>
  {
    [ ProfileLine(PrincipleNames[0], p.scaffolding, LevelLabel(p.scaffolding)),
      ProfileLine(PrincipleNames[1], p.icap, IcapLabel(p.icap)),
      ProfileLine(PrincipleNames[2], p.feedback, LevelLabel(p.feedback)),
      ProfileLine(PrincipleNames[3], p.collaboration, LevelLabel(p.collaboration)),
      ProfileLine(PrincipleNames[4], p.metacognition, LevelLabel(p.metacognition)) ]
  }

  /** The export's score block: the five score lines one after the other. */
  function ProfileBlock(p: Profile): (r: string)
    ensures Consecutive(r, ProfileLines(p))
  {
    var ls := ProfileLines(p);
    ConsecutiveFive(ls[0], ls[1], ls[2], ls[3], ls[4]);
    assert [ls[0], ls[1], ls[2], ls[3], ls[4]] == ls;
    ls[0] + ls[1] + ls[2] + ls[3] + ls[4]
  }

  /** The summary as the export writes it, for the environment's display name. */
  function ReportSummary(envName: string, p: Profile): string
  {
    SummaryLine(DisplayName(envName), p.icap, p.scaffolding, p.metacognition)
  }

  /** The impact paragraph with its first letter upper-cased. */
  function ReportImpact(p: Profile): string
  {
    CapitalizeFirst(ImpactText(p.icap, p.scaffolding, p.metacognition))
  }

  /** The export's layout: title, score lines and a blank line, then four headed sections separated by blank lines. */
  function Layout(title: string, scores: string, summary: string, impact: string, interpretation: string,
                  paragraph: string): string
  {
    title + scores + "\n"
    + Section("Summary", summary) + "\n"
    + Section("Impact on learning", impact) + "\n"
    + Section("Interpretation", interpretation) + "\n"
    + Section("Design improvement summary", paragraph)
  }

  /** The parts of the export in order: title, score block, then the four sections, each after a line break. */
  function ExportParts(title: string, scores: string, summary: string, impact: string, interpretation: string,
                       paragraph: string): seq<string>
  {
    [title, scores, "\n", Section("Summary", summary), "\n", Section("Impact on learning", impact), "\n",
     Section("Interpretation", interpretation), "\n", Section("Design improvement summary", paragraph)]
  }

  /** The layout is its parts laid end to end, in that order. */
  lemma LayoutInOrder(title: string, scores: string, summary: string, impact: string, interpretation: string,
                      paragraph: string)
    ensures Consecutive(Layout(title, scores, summary, impact, interpretation, paragraph),
                        ExportParts(title, scores, summary, impact, interpretation, paragraph))
  {
    ConsecutiveTen(title, scores, "\n", Section("Summary", summary), "\n", Section("Impact on learning", impact), "\n",
                   Section("Interpretation", interpretation), "\n", Section("Design improvement summary", paragraph));
  }

  /**
   * `download_text`: the whole export for an environment name and a profile.
   * In order: the title with the display name, the score block, then the
   * summary, the capitalised impact, the interpretation and the improvement
   * paragraph, each under its heading and after a blank line.
   */
  function DownloadText(envName: string, p: Profile): (r: string)
    ensures Consecutive(r, ExportParts(Title(DisplayName(envName)), ProfileBlock(p), ReportSummary(envName, p),
                                       ReportImpact(p), InterpretationText(p), ImprovementParagraph(p)))
  {
    LayoutInOrder(Title(DisplayName(envName)), ProfileBlock(p), ReportSummary(envName, p), ReportImpact(p),
                  InterpretationText(p), ImprovementParagraph(p));
    Layout(Title(DisplayName(envName)), ProfileBlock(p), ReportSummary(envName, p), ReportImpact(p),
           InterpretationText(p), ImprovementParagraph(p))
  }
}
