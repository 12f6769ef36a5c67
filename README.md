# Learning-environment analyzer: scoring and feedback in Dafny

This project models the logic of a small single-page analyzer for learning
environments. The analyzer scores a learning environment on five design
principles: scaffolding, ICAP engagement, feedback quality, collaboration and
metacognitive support. It then writes feedback about it.

The model has two halves.

The wizard half:
- scores five multiple-choice answers with ordered, case-sensitive substring tests (first match wins);
- turns the scores into level and ICAP labels;
- composes the one-line summary, the three-sentence impact paragraph, the ICAP explanation and the per-principle detail blocks;
- composes the compact interpretation, the design-improvement list with its fallback sentence, and the plain-text export.

The preset half: a catalogue of three example environments, and the explanation
chosen for a preset by substring tests on its name.

Modules:

- `Text` holds Python's `p in s`, `sep.join`, `strip`, `s[0].upper() + s[1:]`, `capitalize` and `str(n)`. It adds the facts about them that the rest uses, such as occurrence through concatenation and absence through a missing character or a cut.
- `Labels` holds `level_label`, `icap_label` and the display-name default.
- `Scoring` holds the radio options as constants (equal to the source's literals character for character), the five scorers and the profile.
- `Narrative` holds the impact sentences. A method builds their list by appends as the source does, and is proved equal to the list `ImpactFragments`, which `ImpactText` joins with spaces. It also holds the ICAP text, the detail blocks, the summary line and the interpretation text.
- `Improvements` holds the recommendation list. A method builds it by five conditional appends and the fallback, and is proved equal to a selection function. Lemmas about that function give the if-and-only-if for each recommendation, the order, and the fallback.
- `Report` holds the download text. Its ordering facts are stated with a predicate saying that a text is a list of parts laid end to end, each part starting where the previous one ends.
- `Presets` holds the preset table, a dictionary lookup and `explain_preset`.

## Model

| member | source | states |
|---|---|---|
| Scoring.MapScaffolding | app.py:196-201 | any answer scores 1, 3 or 5 |
| Scoring.MapIcap | app.py:203-210 | any answer scores 1, 2, 4 or 5; 3 is never produced |
| Scoring.MapFeedback | app.py:212-217 | any answer scores 2, 3 or 5 |
| Scoring.MapCollaboration | app.py:219-224 | any answer scores 1, 3 or 5 |
| Scoring.MapMetacognition | app.py:226-231 | any answer scores 1, 3 or 5 |
| Scoring.ScaffoldingOptionScores | app.py:149-151 | the three offered scaffolding answers score 1, 3, 5 in offer order |
| Scoring.IcapOptionScores | app.py:158-161 | the four offered activity answers score 1, 2, 4, 5 in offer order |
| Scoring.FeedbackOptionScores | app.py:168-170 | the three offered feedback answers score 2, 3, 5 in offer order |
| Scoring.CollaborationOptionScores | app.py:177-179 | the three offered collaboration answers score 1, 3, 5 in offer order |
| Scoring.MetacognitionOptionScores | app.py:186-188 | the three offered metacognition answers score 1, 3, 5 in offer order |
| Scoring.OftenSupportHasNoNever | app.py:151 | the "Often" scaffolding answer does not contain "never", so it falls through to 5 |
| Scoring.SometimesReflectionHasNoNone | app.py:187 | the "Sometimes" metacognition answer does not contain "none" |
| Scoring.OftenLearnersHasNoNone | app.py:188 | the "Often" metacognition answer does not contain "none" |
| Scoring.Entries | app.py:233-239 | the profile's entries carry the five principle names in order, with the profile's scores |
| Scoring.ScoreAnswers | app.py:233-239 | every profile built from answers has each score in its scorer's range |
| Scoring.StrongestAnswersScore | app.py:233-239 | the last option of every question gives the profile 5, 5, 5, 5, 5 |
| Scoring.WeakestAnswersScore | app.py:233-239 | the first option of every question gives the profile 1, 1, 2, 1, 1 |
| Labels.IcapLabel | app.py:242-249 | Passive exactly up to 1, Active exactly at 2, Constructive exactly at 4, Interactive exactly at 3 and from 5 on |
| Labels.LevelLabel | app.py:252-257 | "low" exactly up to 2, "moderate" exactly at 3, "high" exactly from 4 on |
| Labels.IcapLabelFollowsMode | app.py:242-249 | two scores share an ICAP label if and only if they fall in the same mode |
| Labels.LevelLabelFollowsLevel | app.py:252-257 | two scores share a level word if and only if they fall in the same level |
| Labels.CapitalizedLevelLabel | app.py:386 | `capitalize()` of the level word is "Low", "Moderate" or "High" by the same thresholds |
| Labels.DisplayName | app.py:262 | the name is never empty nor padded; it is the stripped input when that has a non-space character, else "This environment" |
| Text.CapitalizeFirst | app.py:259-260 | same length; the first character upper-cased and every later character unchanged; "" stays "" |
| Text.Capitalize | app.py:386 | same length; the first character upper-cased and every later character lower-cased |
| Text.StripSpec | app.py:262 | the stripped text is a contiguous slice, surrounded only by whitespace, and neither starts nor ends with whitespace |
| Text.StripEmptyIff | app.py:262 | stripping gives "" if and only if the text is all whitespace |
| Text.IntToString | app.py:385 | the text is never empty, starts with a minus sign exactly for a negative number, and every other character is a digit |
| Text.ParseNatToString | app.py:385 | the decimal text of a natural number reads back as that number |
| Text.IntToStringInjective | app.py:385 | different integers print differently |
| Text.JoinThree | app.py:336 | three parts joined put one separator between each neighbouring pair |
| Text.Join | app.py:482 | the joined text is as long as the parts together plus one separator between each neighbouring pair |
| Text.JoinSepAt | app.py:482 | the separator stands right after every part but the last |
| Text.JoinPartsInOrder | app.py:482 | every part stands in the joined text in list order, right after the parts before it and one separator for each of them, and the separator fills each gap right after every part but the last |
| Narrative.ImpactParts | app.py:288-334 | the list has exactly three sentences: ICAP by its mode, then scaffolding and metacognition by their levels |
| Narrative.ImpactText | app.py:336 | the paragraph is the three sentences in that order, separated by single spaces |
| Narrative.IcapImpactInjective | app.py:290-306 | different modes give different ICAP sentences |
| Narrative.ScaffoldingImpactInjective | app.py:308-320 | different levels give different scaffolding sentences |
| Narrative.MetacognitionImpactInjective | app.py:322-334 | different levels give different metacognition sentences |
| Narrative.ImpactFragmentsFollowLabels | app.py:288-334 | two score triples give the same three sentences if and only if they get the same ICAP label and the same two level words |
| Narrative.CapitalizedImpact | app.py:339 | the displayed paragraph is the paragraph with its leading "s" upper-cased and nothing else changed |
| Narrative.IcapText | app.py:362-381 | the explanation chain picks the explanation of the mode `icap_label` names |
| Narrative.IcapTextFollowsLabel | app.py:362-381 | two scores get the same explanation if and only if they get the same ICAP label |
| Narrative.ExactlyOneBullet | app.py:387-389 | of the three conditional bullets exactly one is non-empty: the one for the score's level |
| Narrative.BulletText | app.py:387-389 | the three conditional bullets printed in a row show the bullet of the score's level |
| Narrative.ScoreLineInjective | app.py:385 | a score line determines both its score and its label |
| Narrative.LevelBlock | app.py:384-390 | a detail block is the bold title, the score line with the capitalised level, and that level's bullet |
| Narrative.ScaffoldingDetails | app.py:384-390 | the scaffolding block: bold title, score with the capitalised level, and the low, moderate or strong bullet by the thresholds 2 and 4 |
| Narrative.ScaffoldingBulletsExactlyOne | app.py:387-389 | of the scaffolding block's three conditional bullets exactly one is non-empty: the one for the score's level |
| Narrative.FeedbackDetails | app.py:404-410 | the feedback block: bold title, score with the capitalised level, and that level's bullet |
| Narrative.FeedbackBulletsExactlyOne | app.py:407-409 | of the feedback block's three conditional bullets exactly one is non-empty: the one for the score's level |
| Narrative.CollaborationDetails | app.py:415-421 | the collaboration block: bold title, score with the capitalised level, and that level's bullet |
| Narrative.CollaborationBulletsExactlyOne | app.py:418-420 | of the collaboration block's three conditional bullets exactly one is non-empty: the one for the score's level |
| Narrative.MetacognitionDetails | app.py:426-432 | the metacognitive-support block: bold title, score with the capitalised level, and that level's bullet |
| Narrative.MetacognitionBulletsExactlyOne | app.py:429-431 | of the metacognitive-support block's three conditional bullets exactly one is non-empty: the one for the score's level |
| Narrative.IcapDetails | app.py:395-399 | the ICAP block shows the score with the mode name and that mode's explanation as its bullet |
| Narrative.SummaryLine | app.py:280-284 | the summary is the bold heading, the name, the bold ICAP mode name, the bold scaffolding level and the bold metacognition level, in that order |
| Narrative.SummaryLineOpensWithName | app.py:280-284 | the summary starts with the bold heading and the display name |
| Narrative.SummaryLineNamesMode | app.py:280-284 | the summary holds the ICAP mode's name in bold |
| Narrative.SummaryLineNamesScaffolding | app.py:280-284 | the summary holds the scaffolding level in bold with its noun |
| Narrative.SummaryLineNamesMetacognition | app.py:280-284 | the summary holds the metacognitive-support level in bold with its noun |
| Narrative.InterpretationText | app.py:435-447 | the five sections stand one after the other in profile order, each at the offset where the previous ends; each is its principle's title line and the score line with its own score and label, the ICAP one followed by its explanation line |
| Improvements.BuildImprovements | app.py:453-480 | five conditional appends followed by the fallback build exactly the improvement list |
| Improvements.ImprovementList | app.py:453-480 | the list is never empty and has at most one item per principle |
| Improvements.RecommendationIff | app.py:455-474 | each principle's recommendation is in the list if and only if its score is 2 or lower |
| Improvements.FallbackIff | app.py:476-480 | the list is never empty; the closing remark is in it if and only if all five scores exceed 2, and then it is the whole list |
| Improvements.ImprovementsInCheckOrder | app.py:455-474 | the recommendations appear in the order scaffolding, ICAP, collaboration, metacognition, feedback |
| Improvements.RecommendationsDistinct | app.py:455-479 | the five recommendations and the closing remark are pairwise different texts |
| Improvements.TriggeredMember | app.py:455-474 | with distinct texts, a text is selected if and only if its own score is low |
| Improvements.TriggeredEmptyIff | app.py:476 | nothing is selected if and only if no score is low |
| Improvements.TriggeredAtLowPositions | app.py:455-474 | the selection is the texts at the low positions, in increasing order |
| Improvements.ParagraphHoldsRecommendations | app.py:482 | the joined paragraph carries the recommendation of every principle scored 2 or lower |
| Improvements.ImprovementParagraph | app.py:482 | the paragraph is as long as the items plus one character per gap; the items stand in list order and a space stands right after each item but the last |
| Report.ProfileBlock | app.py:489-494 | the five score lines stand one after the other in profile order: scaffolding, ICAP, feedback, collaboration, metacognitive support |
| Report.DownloadText | app.py:488-501 | the export is, in this order and end to end: the title with the display name, the score block, then the summary, the capitalised impact, the interpretation and the improvement paragraph, each under its heading and after a line break |
| Presets.CatalogueShape | app.py:35-57 | three presets with distinct names; each has the five principles in order, every score in 1..5 |
| Presets.Lookup | app.py:60 | a name is found exactly when some entry has it, and then the result is that entry's scores |
| Presets.LookupFindsPresets | app.py:35-60 | each preset name looks up its own scores |
| Presets.BranchOf | app.py:84-126 | "Traditional" wins first; "no teacher" wins only without it; the supervised text otherwise |
| Presets.ExplainPreset | app.py:84-126 | the traditional text exactly when the name contains "Traditional"; the no-teacher text exactly when it does not but contains "no teacher"; the supervised text exactly otherwise |
| Presets.ExplanationFollowsBranch | app.py:84-126 | two names get the same explanation if and only if they select the same branch |
| Presets.SupervisedNameLacksNoTeacher | app.py:50 | the third preset's name does not contain "no teacher" |
| Presets.PresetsSelectOwnExplanation | app.py:84-126 | each preset's own name selects the explanation written for it |

## Left out

- Streamlit page setup, tabs, forms, radio and text widgets, and markdown rendering are left out. `explain_preset` returns its text instead of rendering it.
- The pandas tables and plotly bar charts are left out because they are presentation built on foreign libraries.
- The download button itself is left out because it is I/O. The text it is handed is modelled as `Report.DownloadText`.
- The footer caption and the references expander are left out because they are static text.
- Python's case mapping is modelled for ASCII letters only. Every character the analyzer actually upper- or lower-cases is an ASCII letter.
- Unknown answers are modelled as the code handles them: each scorer falls through to its last branch (for example 5, or Interactive for ICAP). No error is raised.
- The script binds `scaff`, `icap`, `feed`, `collab` and `meta` by reading the profile dictionary one key at a time. The model reads the fields of a `Profile` value instead.
- The detail blocks and the summary are plain functions. The source's `st.markdown` calls with them are not modelled, nor are the blank `st.markdown("")` spacers.
- The preset table is modelled as an ordered list of (name, profile) pairs. `Lookup` models the dictionary access; Python's hashing is not modelled.
