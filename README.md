# Disney crowd-score navigator: load score and verdict

This project models the scoring core of a small Streamlit app that estimates how hard a day at a
Tokyo Disney park will be. The user picks, for each attraction in a score table, "not adopted"
(採用しない), "queue" (並ぶ) or "DPA". The app adds up the chosen scores into a raw total. It then
multiplies in three correction factors:

- crowd level (混雑度);
- companions (同伴者);
- perks (Happy Entry, Vacation Package).

`evaluate` turns the corrected total into one of four verdicts. It uses three thresholds that
depend on the accepted wait and on the crowd level. It then renders a markdown report.

Modules:

- `Wrappers` (wrappers.dfy): `Option` and `Result`.
- `Conditions` (conditions.dfy): the labels offered in the condition select boxes. Each label set
  is a datatype with its label text. A parser recognises exactly those labels.
- `Modifiers` (modifiers.dfy): `child_modifier`, `crowd_modifier` and `perk_modifier`. The first
  two are dictionary lookups that default to 1.00. The perk factor is a function, and
  `PerkModifier` is a method that updates its local factor step by step, as the source does.
- `Text` (text.dfy): `"\n".join` and `str.split("\n")`. The model proves that splitting undoes
  joining.
- `Evaluation` (evaluate.dfy): `evaluate`. It covers the threshold arithmetic, the verdict choice
  and the line-by-line construction of the report. An unknown wait tolerance or crowd label is the
  source's `KeyError`, returned as a `Failure`.
- `Selection` (selection.dfy): the `ATTRACTIONS` table and the selection loop of the page, lifted
  into the method `TallySelection`. The method returns the raw total, the "selected" table and the
  corrected total.
- `Pipeline` (pipeline.dfy): facts about feeding the corrected total into the verdict.

Factors are exact `real`s with the app's decimal constants. Scores are `int`s.

The verdict compares the corrected total with three additive thresholds: 28, 38 and 48 times
the tolerance factor, each plus a crowd bump (streamlit_app.py:135-148).

The crowd factor raises the total on crowded days, and the crowd bump raises the thresholds as
well. For a fixed total, a more crowded day therefore never gets a harsher verdict
(`CrowdBumpNeverHarsher`). End to end, a busier day can even be judged milder for the same
selection (`BusierDayCanBeJudgedMilder`). This contradicts the app's own comment and score notes,
which say that crowded days are harsher for the same score; see the findings below. `Evaluate` and
`PageVerdict` keep the code's behaviour. The thresholds with the bump taken off are modelled
beside them as `IntendedThresholds`.

## Model

| member | source | states |
|---|---|---|
| Conditions.ParseCrowd | streamlit_app.py:109-114 | a crowd label is recognised exactly when it is one of the four keys, and each key names its own level |
| Conditions.ParseCompanions | streamlit_app.py:101-106 | a companion label is recognised exactly when it is one of the four keys of the child table |
| Conditions.ParseWaitTolerance | streamlit_app.py:129-133 | a wait-tolerance label is recognised exactly when it is one of the three keys of the tolerance table |
| Modifiers.ChildModifier | streamlit_app.py:99-106 | unknown labels give 1.00; the factor always lies in [1.00, 1.18]; it is 1.00 exactly for adults only or an unknown label |
| Modifiers.CrowdModifier | streamlit_app.py:108-114 | unknown labels give 1.00; the factor always lies in [0.90, 1.25]; it is below 1 only on a quiet day and above 1 only on busy or sold-out-level days |
| Modifiers.PerkFactor | streamlit_app.py:116-123 | takes exactly the four values 1.00, 0.90, 0.85 and 0.90 × 0.85, and always lies in (0, 1] |
| Modifiers.PerkModifier | streamlit_app.py:116-123 | the step-by-step multiplication yields the perk factor |
| Modifiers.ChildModifierRises | streamlit_app.py:101-106 | a more demanding companion group always has a strictly larger factor |
| Modifiers.CrowdModifierRises | streamlit_app.py:109-114 | a more crowded day always has a strictly larger factor |
| Modifiers.PerkLowersFactor | streamlit_app.py:117-123 | turning either perk on strictly lowers the factor |
| Text.Join | streamlit_app.py:199 | joining one line gives that line; otherwise the text starts with the first line, followed by a newline when more lines follow |
| Text.SplitJoin | streamlit_app.py:199 | splitting the joined text at newlines gives back the lines, when no line holds a newline |
| Evaluation.ToleranceFactor | streamlit_app.py:129-133 | the tolerance factor lies in [0.90, 1.08]; it is below 1 exactly for 30 minutes and exactly 1 for 60 minutes |
| Evaluation.CrowdBump | streamlit_app.py:140-145 | the bump lies in [-4, 10]; it is negative exactly on a quiet day and 0 exactly on a usual day |
| Evaluation.MakeThresholds | streamlit_app.py:129-148 | for every valid pair the thresholds are strictly ordered, easy < ok < tough, and each gap is 10 × tol |
| Evaluation.Classify | streamlit_app.py:168-193 | the verdict is "very easy" exactly when the total is at most the first threshold, and "very hard" exactly when it exceeds all three |
| Evaluation.VerdictBands | streamlit_app.py:168-193 | each verdict covers exactly one band of totals: at most easy, then up to ok, then up to tough, then above |
| Evaluation.SeverityMonotone | streamlit_app.py:168-193 | with the other arguments fixed, a larger total never gets a milder verdict |
| Evaluation.CrowdBumpNeverHarsher | streamlit_app.py:140-148 | for a fixed total and tolerance, a more crowded day never gets a harsher verdict |
| Evaluation.StricterThresholdsNeverMilder | streamlit_app.py:168-193 | a higher total against lower thresholds never gets a milder verdict |
| Evaluation.IntendedThresholds | streamlit_app.py:135-148 | the thresholds with the crowd bump subtracted: still strictly ordered, and the first one lies twice the bump below the code's |
| Evaluation.IntendedThresholdsFall | streamlit_app.py:135-148 | with the bump subtracted, a more crowded day has lower thresholds |
| Evaluation.ToleranceNeverHarsher | streamlit_app.py:129-138 | for a fixed total and crowd, a longer accepted wait never gets a harsher verdict |
| Evaluation.WaitComment | streamlit_app.py:152-157 | the wait comment chosen for each tolerance is one line without a newline |
| Evaluation.PerkComment | streamlit_app.py:159-166 | the perk comment chosen for each combination of perks is one line without a newline |
| Evaluation.Report | streamlit_app.py:195-198 | the report has six lines plus one per advice item, opening with the heading and the total line |
| Evaluation.Bullets | streamlit_app.py:198 | one bullet per advice item, in order, each the item prefixed by "- " |
| Evaluation.RenderReport | streamlit_app.py:150-198 | building the lines by append and extend yields the report's lines |
| Evaluation.Evaluate | streamlit_app.py:125-199 | an unknown wait tolerance raises KeyError for it; otherwise an unknown crowd raises KeyError for it; otherwise the result is the joined report for the verdict the thresholds give |
| Evaluation.ReportLayout | streamlit_app.py:150-198 | the report is: heading, total line, blank, one wait comment, one perk comment, blank, then one bullet per advice item (2, 2, 3 or 3 by verdict) |
| Evaluation.ReportTextLines | streamlit_app.py:195-199 | the returned text splits at newlines into exactly the report's lines |
| Selection.Paired | streamlit_app.py:253 | the loop visits as many rows as the shorter of table and choices, as zip does |
| Selection.Contribution | streamlit_app.py:254-259 | "並ぶ" adds the queue score, "DPA" adds the DPA score, any other choice adds nothing |
| Selection.SumChosen | streamlit_app.py:251-258 | the raw total over the first n rows; it is never negative when the scores are not |
| Selection.PickOf | streamlit_app.py:254-259 | a row adds exactly one "selected" entry when its choice is "並ぶ" or "DPA" and none otherwise, carrying the chosen score |
| Selection.PickedRows | streamlit_app.py:252-259 | every entry of the "selected" table has mode "並ぶ" or "DPA" |
| Selection.CorrectedTotal | streamlit_app.py:262-265 | the raw total times the crowd, companion and perk factors |
| Selection.TallySelection | streamlit_app.py:251-265 | the raw total is the sum of the chosen columns, the "selected" table lists the chosen rows, and the total is the raw total times the three factors |
| Selection.ApplyCorrections | streamlit_app.py:262-265 | multiplying the factors in one by one yields the corrected total |
| Selection.CombinedFactor | streamlit_app.py:262-265 | the product of the three factors lies in [0.6885, 1.475] |
| Selection.CorrectedTotalBounds | streamlit_app.py:262-265 | the corrected total is 0 when nothing is scored and lies between 0.6885 and 1.475 times a non-negative raw total |
| Selection.CorrectedTotalMonotone | streamlit_app.py:262-265 | more raw points never lower the corrected total |
| Selection.PickedScoresSum | streamlit_app.py:251-259 | the raw total equals the sum of the scores listed in the "selected" table |
| Selection.PickedCount | streamlit_app.py:251-259 | the "selected" table has one entry per choice of "並ぶ" or "DPA" |
| Selection.PickedInTableOrder | streamlit_app.py:251-259 | later rows only append, so the "selected" table follows the order of the score table |
| Selection.SumChosenBounds | streamlit_app.py:251-259 | each row contributes at most one of its scores, never both: with non-negative scores the raw total lies between 0 and the sum of each row's larger score |
| Selection.NothingSelected | streamlit_app.py:251-259 | when no row is chosen, the raw total is 0 and the "selected" table is empty |
| Selection.SampleTableRawTotal | streamlit_app.py:20-27 | on the shipped table, any selection gives a raw total between 0 and 24 |
| Pipeline.PageVerdict | streamlit_app.py:262-265 | the verdict the page shows: the corrected total, passed to evaluate under the same crowd (the call at streamlit_app.py line 286); its properties are stated by MorePointsNeverMilder, EmptySelectionIsEasiest and BusierDayCanBeJudgedMilder |
| Pipeline.MorePointsNeverMilder | streamlit_app.py:262-265 | with the conditions fixed, more raw points never give a milder verdict |
| Pipeline.EmptySelectionIsEasiest | streamlit_app.py:251-265 | selecting nothing is always judged the easiest verdict |
| Pipeline.BusierDayCanBeJudgedMilder | streamlit_app.py:140-148 | queueing for all six rides gives a raw total of 24, which, with upper-grade children, a 30-minute tolerance and no perks, is "standard" on a usual day but "very easy" on a sold-out-level day |
| Pipeline.CorrectedTotalGrowsWithCrowd | streamlit_app.py:262-265 | for a non-negative raw total, a more crowded day never lowers the corrected total |
| Pipeline.IntendedPageVerdict | streamlit_app.py:135-148 | the same verdict with the crowd bump subtracted from the thresholds; its properties are stated by IntendedBusierDayNeverMilder and IntendedExampleIsHarsher |
| Pipeline.IntendedBusierDayNeverMilder | streamlit_app.py:135-148 | with the bump subtracted, a more crowded day never gets a milder verdict for the same raw total and conditions |
| Pipeline.IntendedExampleIsHarsher | streamlit_app.py:135-148 | on the example above, the thresholds with the bump subtracted judge the sold-out-level day "somewhat hard" and the usual day "standard" |

## Findings

| source | as written | input that shows it | evidently intended | confidence | as-written member | corrected member |
|---|---|---|---|---|---|---|
| streamlit_app.py:135-148 | the crowd bump is added to all three thresholds, so a more crowded day gets higher thresholds | raw total 24 (all six rides queued), upper-grade children, 30-minute tolerance, no perks: 25.44 > 25.2 is "standard" on a usual day, 31.8 <= 35.2 is "very easy" on a sold-out-level day | the same score is harsher on a crowded day, as the comment at line 135 and the score notes at streamlit_app.py:37-40 say; taking the bump off the thresholds gives that | medium, not executed; the sign may be a deliberate allowance for the crowd factor already in the total | Pipeline.BusierDayCanBeJudgedMilder | Pipeline.IntendedBusierDayNeverMilder |

## Left out

- `Evaluate` and `PageVerdict` keep the thresholds as written, since they model what the page
  shows; the corrected thresholds are used only by `IntendedPageVerdict` and the lemmas about it.

- `_sha256`, `verify_passphrase` and `login_gate` (streamlit_app.py:64-94): they wrap hashing,
  HMAC comparison, secrets and session state, which are foreign calls and UI.
- Page layout, widgets, the reset button's session-state rewrite and the rerun
  (streamlit_app.py:204-288): UI and I/O. The choices and conditions become parameters.
- The pandas DataFrames (streamlit_app.py:219, 253, 280) are replaced by sequences of records.
- The markdown constants `SCORE_DEFINITION` and `USAGE_NOTE` (streamlit_app.py:32-59) are static
  text.
- Evaluation.Evaluate: the one-decimal rendering of the total (`f"{total:.1f}"`) is float-to-text
  formatting. It is a parameter (`totalText`) that the model treats as opaque.
- Floating point: factors and totals are exact reals. A total that lands exactly on a threshold
  may be classified differently by Python's binary floats.
