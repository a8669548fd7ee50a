# Emotion-scoring engine of the lie detector, in Dafny

This project models the rule-based scoring engine of the lie-detector client,
`client/src/utils/emotionAnalysis.ts`. The engine takes one sample of the seven face-api
emotion labels: neutral, happy, sad, angry, fearful, disgusted and surprised. It returns the
analysis of one answer: a truth probability, an emotional stability score, the dominant
emotions, the micro-expressions, the deception indicators, the valid emotion transitions, an
optional comparison with a recorded baseline, a trail of observations explaining which rules
fired, and the formatted summary the UI shows.

## How the model is laid out

One Dafny module per part of the engine, all in the top directory:

| file | module | what it holds |
|---|---|---|
| `common.dfy` | `Common` | `Option`, absolute value, min/max, the clamp to [0, 1] and "keep the newest n" |
| `emotions.dfy` | `Emotions` | the seven labels in the key order of the caller's samples, emotion vectors, `isValidEmotions` and `normalizeEmotions` |
| `bands.dfy` | `Bands` | the graded texts: intensity, balance, micro-expression significance, the truth bands |
| `tension.dfy` | `FacialTension` | the landmark geometry: asymmetry, muscle tension, rapid movements, unnatural expressions |
| `dominant.dfy` | `Dominant` | the dominant emotions: a filter, then a stable descending sort |
| `transitions.dfy` | `Transitions` | `detectEmotionChanges` as a function of the tracker state, and `getTransitionDescription` |
| `micro.dfy` | `MicroExpressions` | `analyzeMicroExpression` as a function of the detector state, and `analyzeMicroExpressionSequence` with its loops |
| `baseline.dfy` | `Baseline` | `compareWithBaseline` and `getChangeSignificance` |
| `indicators.dfy` | `Indicators` | `getDeceptionIndicators`: a specification function and the nested loops proved equal to it |
| `format.dfy` | `Formatting` | `formatAnalysisResults` |
| `stages.dfy` | `Stages` | the penalty stages of `analyzeEmotions`. Each stage is an `Effect`: a truth cut, a stability cut and the observation lines it appends. Next to each stage is the loop that accumulates it as the source does. |
| `analysis.dfy` | `Analysis` | `analyzeEmotions` as a function of the session state, and the properties of a whole call |
| `session.dfy` | `Session` | the three module-level variables as fields of `class Session`, and the exported operations that update them in place |

The engine keeps its state in three module-level variables: `emotionHistory`,
`microExpressionHistory` and `baselineEmotions`. They become the fields of one
`Session` object. Each method that changes them is proved to move the object exactly as a
pure specification function (`Observe`, `MicroStep`, `Analyze`) moves a snapshot of it. The
properties are proved about those functions.

A call reads the wall clock three times: in `detectEmotionChanges`, before the
micro-expression loop, and in `getDeceptionIndicators`. These reads become the three fields of
a `Clock` parameter. Texts the engine builds from templates become tagged datatypes, for
example `Observation`, `Indicator`, `SequenceInsight` and `ChangeSignificance`. Each case
carries the values the text shows.

Two iteration orders matter to the engine:
- `Object.entries` over a sample visits its keys in the order of the object the caller passed in.
  `normalizeEmotions` returns that object as it is (line 285) or copies it with `{ ...emotions }`
  (line 288), so the engine itself fixes no order. The caller in
  `client/src/components/VideoAnalysis.tsx` (lines 106-118) passes face-api's `expressions` or a
  literal with the keys neutral, happy, sad, angry, fearful, disgusted, surprised. The model
  assumes that key order for every sample (see "## Left out").
- `Object.values` over the sequence groups, whose keys are integers, visits them in ascending
  order. This is fixed by the language, and the model follows it.

The dominant-emotion sort is stable, so tied labels keep the sample's key order.

Where the written specification of the engine and the code differ, the model follows the code:
- The truth probability starts at 0.5 (line 828), not 1.0. A call can therefore never yield a
  truth probability above 0.5.
- A new micro-expression takes the sequence id of the *oldest* expression started under
  1000 ms ago (lines 615-622), not that of any such expression.
- The formatted percentage is `round((1 - (p || 0.5)) * 100)` (line 726). It is banded by the
  same thresholds as the probability, so it always lies in [50, 100] and is never below
  "Ebaselge".
- For neutral 0.2, happy 0.6 and fearful 0.2, the dominant emotions are happy, neutral,
  fearful. The stable sort keeps the tied neutral before fearful (`Dominant.TiedLabelsKeepOrder`).

## Model

| member | source | states |
|---|---|---|
| Common.Clamp01 | client/src/utils/emotionAnalysis.ts:966-967 | the result lies in [0, 1], equals the input inside [0, 1], and is 0 below it and 1 above it |
| Common.KeepLast | client/src/utils/emotionAnalysis.ts:553-555 | keeps at most n entries, and they are the newest: the whole list when it is short enough, otherwise exactly its last n |
| Emotions.ValidIffComplete | client/src/utils/emotionAnalysis.ts:211-228 | a sample is valid exactly when each of the seven labels carries a number |
| Emotions.ToVector | client/src/utils/emotionAnalysis.ts:211-228 | a valid sample read as a vector keeps every label's value |
| Emotions.Normalize | client/src/utils/emotionAnalysis.ts:280-294 | a vector summing to 0 comes back unchanged; otherwise every value times the sum is the original value |
| Emotions.NormalizeIsScale | client/src/utils/emotionAnalysis.ts:289-291 | normalising is scaling every label by one over the sum |
| Emotions.NormalizeSumsToOne | client/src/utils/emotionAnalysis.ts:280-294 | a vector whose sum is not 0 normalises to values that sum to exactly 1 |
| Emotions.NormalizeIdempotent | client/src/utils/emotionAnalysis.ts:280-294 | normalising twice is normalising once |
| Emotions.NormalizeInUnitRange | client/src/utils/emotionAnalysis.ts:280-294 | non-negative values with a positive sum normalise into [0, 1] |
| Bands.EmotionIntensityMonotone | client/src/utils/emotionAnalysis.ts:192-199 | the intensity label never drops as the value grows, and is "olematu" exactly below 3% |
| Bands.EmotionalBalanceByProducts | client/src/utils/emotionAnalysis.ts:201-209 | with negative emotions present, positive dominates exactly when happy exceeds twice the negative sum, and negative dominates exactly when twice happy is under it; with none, positive dominates exactly when happy exceeds 0.0002 |
| Bands.MicroExpressionSignificance | client/src/utils/emotionAnalysis.ts:230-278 | a duration qualifier appears exactly when a duration is given, and no emotion reading is added exactly for neutral and happy |
| Bands.MicroSignificanceMonotone | client/src/utils/emotionAnalysis.ts:237-256 | a stronger intensity never gets a lower tier, and a longer duration never gets a shorter qualifier |
| Bands.BandsAgree | client/src/utils/emotionAnalysis.ts:995-1001 | the percentage bands of the formatter agree with the probability bands at percentage/100, and the bands are monotone |
| FacialTension.MaxOf | client/src/utils/emotionAnalysis.ts:451-452 | the maximum of a non-empty list is one of its elements and no element exceeds it |
| FacialTension.CompareEyePositions | client/src/utils/emotionAnalysis.ts:430-447 | the eye difference is never negative |
| FacialTension.CompareEyebrowPositions | client/src/utils/emotionAnalysis.ts:449-461 | the eyebrow difference is never negative |
| FacialTension.CompareMouthCorners | client/src/utils/emotionAnalysis.ts:463-475 | the mouth difference is never negative |
| FacialTension.Asymmetry | client/src/utils/emotionAnalysis.ts:319-332 | the asymmetry score lies in [0, 1] |
| FacialTension.AsymmetryMirrorInvariant | client/src/utils/emotionAnalysis.ts:319-332 | swapping left and right everywhere leaves the asymmetry score unchanged |
| FacialTension.MuscleTensionInRange | client/src/utils/emotionAnalysis.ts:334-342 | the muscle tension is an average: it lies within any bounds that hold all three tensions |
| FacialTension.MaxFromBounds | client/src/utils/emotionAnalysis.ts:353 | the running maximum is at least its start and every element, and is the start or one of the elements |
| FacialTension.RapidMovementsBounds | client/src/utils/emotionAnalysis.ts:344-354 | the rapid-movement score is never negative, is at least each of the four movements, and is 0 or one of them |
| FacialTension.UnnaturalExpressions | client/src/utils/emotionAnalysis.ts:356-370 | the score is one of 0, 0.3, 0.4 and 0.7; it exceeds 0.3 exactly when the pupils differ by more than 0.2, and reaches 0.3 exactly when that happens or a raised brow meets a tense mouth |
| FacialTension.AnalyzeFacialTension | client/src/utils/emotionAnalysis.ts:296-317 | asymmetry lies in [0, 1], rapid movements are never negative, and the unnatural score lies in [0, 0.7] |
| Dominant.Insert | client/src/utils/emotionAnalysis.ts:854 | inserting into the sorted prefix adds exactly the new entry |
| Dominant.SortDescending | client/src/utils/emotionAnalysis.ts:854 | the sort is a permutation of its input |
| Dominant.EntriesAboveExact | client/src/utils/emotionAnalysis.ts:852-853 | the filter keeps, in label order, exactly the labels of at least 5%, each with its own value |
| Dominant.InsertRanked | client/src/utils/emotionAnalysis.ts:854 | inserting an entry later in label order into a ranked list keeps it ranked |
| Dominant.SortRanks | client/src/utils/emotionAnalysis.ts:854 | sorting entries given in label order yields them by decreasing value, ties in label order |
| Dominant.SameEntries | client/src/utils/emotionAnalysis.ts:852-854 | the ranked entries are exactly the filtered entries |
| Dominant.DominantRanked | client/src/utils/emotionAnalysis.ts:852-858 | the dominant emotions come in non-increasing order of value, each label at most once |
| Dominant.DominantMembers | client/src/utils/emotionAnalysis.ts:852-858 | a label is dominant exactly when its value is at least 5%, and it is listed with that value |
| Dominant.TiedLabelsKeepOrder | client/src/utils/emotionAnalysis.ts:852-858 | for neutral 0.2, happy 0.6 and fearful 0.2 the dominant emotions are happy, neutral, fearful |
| Transitions.MakeTransition | client/src/utils/emotionAnalysis.ts:497-541 | a transition is valid exactly when the elapsed time lies in [100, 200] ms, and exactly then its note is an in-window grade; it is "too fast" exactly under 50 ms; it records the label, both values, the time, the elapsed time and the absolute change |
| Transitions.ValidOnly | client/src/utils/emotionAnalysis.ts:557 | the filter keeps exactly the valid transitions |
| Transitions.Observe | client/src/utils/emotionAnalysis.ts:477-558 | every call records the sample and the time. A first call returns nothing and records no transition. Otherwise the history becomes the newest 20 of the old history followed by the returned transitions. It is either at most 20 long or left as it was. |
| Transitions.ScanShape | client/src/utils/emotionAnalysis.ts:491-544 | each transition of a scan is a change of at least 1% of its own label, from the previous value to the current one, stamped with the time and elapsed time, and valid exactly in the window |
| Transitions.ScanOrdered | client/src/utils/emotionAnalysis.ts:491 | a scan's transitions come in label order, one per label at most |
| Transitions.ScanCoverage | client/src/utils/emotionAnalysis.ts:491-496 | a label among those visited has a transition exactly when it moved by at least 1% |
| Transitions.ScanRun | client/src/utils/emotionAnalysis.ts:513-538 | inside the window every transition is valid, the last one becomes the last valid transition, every one after the first is marked consecutive, and the first is consecutive exactly when the previous valid transition is under 1000 ms old |
| Transitions.ScanRunValid | client/src/utils/emotionAnalysis.ts:519-538 | inside the window every transition of a scan is valid and the last one is remembered |
| Transitions.ScanRunNotes | client/src/utils/emotionAnalysis.ts:531-535 | inside the window every transition after the first is marked consecutive; the first only when the last valid one is under 1000 ms old |
| Transitions.ScanStamped | client/src/utils/emotionAnalysis.ts:506 | every transition of one call carries that call's time |
| Transitions.ScanNotes | client/src/utils/emotionAnalysis.ts:522-528 | each in-window note grades the transition's own change and direction, with the elapsed time |
| Transitions.ScanOutsideWindow | client/src/utils/emotionAnalysis.ts:539-541 | outside the window no transition is valid and the last valid transition is unchanged |
| Transitions.ValidOnlyAllValid | client/src/utils/emotionAnalysis.ts:557 | filtering a list of valid transitions returns it whole |
| Transitions.ObservedTransitionsValid | client/src/utils/emotionAnalysis.ts:496-557 | every returned transition is valid, a change of at least 1%, with elapsed time in [100, 200] ms, stamped with the call's time; outside the window nothing is returned and the last valid transition stays |
| Transitions.ObserveInWindow | client/src/utils/emotionAnalysis.ts:491-545 | inside the window a label is returned exactly when it moved by at least 1%; every transition after the first is consecutive; the last becomes the last valid transition, which stays when nothing is returned |
| Transitions.ObserveIsScan | client/src/utils/emotionAnalysis.ts:550-557 | inside the window nothing is filtered out: the call returns the whole scan |
| Transitions.ScanSingleLabel | client/src/utils/emotionAnalysis.ts:491-544 | when only one label moved by 1% or more, a scan in the window holds exactly one transition, for that label |
| Transitions.SingleLabelChange | client/src/utils/emotionAnalysis.ts:491-544 | then the call returns exactly that transition, valid, graded by its own change and elapsed time, and consecutive exactly when the last valid transition is under 1000 ms old |
| Transitions.TooFastThenWithinWindow | client/src/utils/emotionAnalysis.ts:513-525 | a repeat 10 ms later yields nothing; a 15-point rise of angry 150 ms after that yields exactly one valid marked rise of angry |
| Transitions.AngryRise | client/src/utils/emotionAnalysis.ts:496-525 | inside the window a 15-point rise of angry alone is exactly one valid marked rise of angry |
| Transitions.DescriptionAgreesWithNote | client/src/utils/emotionAnalysis.ts:560-570 | the description of a returned transition has the note's direction, and calls it abrupt or significant exactly when the note marks it |
| MicroExpressions.Recent | client/src/utils/emotionAnalysis.ts:615-617 | the window filter keeps exactly the expressions started under the window before now |
| MicroExpressions.RecentHead | client/src/utils/emotionAnalysis.ts:615-621 | the first expression of the window is the oldest one started in it |
| MicroExpressions.MicroStep | client/src/utils/emotionAnalysis.ts:600-641 | nothing is returned and nothing changes exactly under 0.5%. Otherwise the record has the label, the intensity, the time and a duration of at most 500 ms, and the history becomes the newest 20 after it is appended. The counter rises by at most one. |
| MicroExpressions.SequenceIdChoice | client/src/utils/emotionAnalysis.ts:615-622 | the id is that of the oldest expression started under 1000 ms ago, with the counter untouched; with none, the counter rises by exactly one and becomes the id |
| MicroExpressions.MicroStepKeepsIds | client/src/utils/emotionAnalysis.ts:620-622 | a non-negative counter bounding every buffered id is kept, and every id handed out lies between 1 and the counter |
| MicroExpressions.StepMembers | client/src/utils/emotionAnalysis.ts:635-638 | after a recorded step the history holds the new record and otherwise only older entries |
| MicroExpressions.SameSequenceWithinWindow | client/src/utils/emotionAnalysis.ts:615-622 | a second expression 400 ms after the first joins its sequence |
| MicroExpressions.NextSequenceAfterWindow | client/src/utils/emotionAnalysis.ts:615-622 | an expression 1500 ms after the first, with nothing else recent, opens the next sequence |
| MicroExpressions.TallyCounts | client/src/utils/emotionAnalysis.ts:1037-1040 | the tally lists each emotion seen once, in order of first appearance, with the number of its occurrences |
| MicroExpressions.RapidPairs | client/src/utils/emotionAnalysis.ts:1017-1034 | the pair loop computes exactly the pair insights |
| MicroExpressions.CountEmotions | client/src/utils/emotionAnalysis.ts:1037-1040 | the counting loop computes exactly the tally |
| MicroExpressions.RepeatedEmotions | client/src/utils/emotionAnalysis.ts:1042-1046 | the reporting loop computes exactly the repetition insights |
| MicroExpressions.AnalyzeMicroExpressionSequence | client/src/utils/emotionAnalysis.ts:1004-1050 | the three loops together compute exactly the sequence insights |
| MicroExpressions.RepeatInsightsMembers | client/src/utils/emotionAnalysis.ts:1042-1046 | an emotion is reported with count c exactly when it is among those visited and its count c is at least 3 |
| MicroExpressions.RepeatInsightsExact | client/src/utils/emotionAnalysis.ts:1037-1046 | a repetition is reported exactly for an emotion occurring at least 3 times, with its number of occurrences |
| MicroExpressions.PairInsightsNoRepeat | client/src/utils/emotionAnalysis.ts:1017-1034 | the pair loop never reports a repetition |
| MicroExpressions.RepeatedExactly | client/src/utils/emotionAnalysis.ts:1011-1046 | an emotion is reported as repeated with count c exactly when at least two expressions started in the last 3000 ms and c of them, at least 3, show it |
| MicroExpressions.PairAtShape | client/src/utils/emotionAnalysis.ts:1018-1032 | one pair contributes nothing, a rapid transition under 500 ms, or such a transition of a suspicious pair followed by its flag |
| MicroExpressions.PairInsightsShape | client/src/utils/emotionAnalysis.ts:1017-1034 | every rapid transition is under 500 ms apart, every flag directly follows a rapid transition of a suspicious pair, and the list opens with a rapid transition |
| MicroExpressions.PairGapsRapid | client/src/utils/emotionAnalysis.ts:1022-1023 | every reported rapid transition is under 500 ms apart |
| MicroExpressions.SuspiciousFollowsRapid | client/src/utils/emotionAnalysis.ts:1022-1032 | every flag directly follows a rapid transition of happy→fearful, happy→surprised or neutral→fearful |
| MicroExpressions.RapidTransitionsExact | client/src/utils/emotionAnalysis.ts:1017-1034 | a rapid transition is reported exactly for each neighbouring pair started under 500 ms apart, with that pair's two emotions and its gap |
| MicroExpressions.SuspiciousExact | client/src/utils/emotionAnalysis.ts:1017-1032 | the suspicious-order flag is raised exactly when some neighbouring pair under 500 ms apart is happy→fearful, happy→surprised or neutral→fearful |
| MicroExpressions.RapidReportedExactly | client/src/utils/emotionAnalysis.ts:1004-1034 | the sequence analysis reports a rapid transition exactly for each neighbouring pair of the last 3000 ms under 500 ms apart, once at least two expressions started in that window |
| MicroExpressions.SuspiciousFlaggedExactly | client/src/utils/emotionAnalysis.ts:1004-1034 | the sequence analysis flags a suspicious order exactly when at least two expressions started in the last 3000 ms and two neighbouring ones under 500 ms apart form a suspicious pair |
| MicroExpressions.SimultaneousAllRapid | client/src/utils/emotionAnalysis.ts:1017-1023 | expressions that all started at the same time give a rapid transition, with gap 0, for every consecutive pair |
| Baseline.ChangeSignificanceOf | client/src/utils/emotionAnalysis.ts:678-710 | a rise exactly for a positive difference; significant exactly from 10%, slight exactly under 5%; the plain label is used exactly for happy, sad and disgusted |
| Baseline.CompareWithBaseline | client/src/utils/emotionAnalysis.ts:651-676 | there is a comparison exactly when a baseline is set, holding the baseline and the current vector |
| Baseline.ChangesOverExact | client/src/utils/emotionAnalysis.ts:656-669 | every kept change is of at least 2% and is measured from the baseline to the current value of its label. The changes come in label order. A label is kept exactly when it moved by at least 2%. |
| Baseline.ChangesOverKept | client/src/utils/emotionAnalysis.ts:656-669 | every kept change is of at least 2%, on its own label, with its significance |
| Baseline.ChangesOverOrdered | client/src/utils/emotionAnalysis.ts:656 | the kept changes come in label order |
| Baseline.ChangesOverCovers | client/src/utils/emotionAnalysis.ts:656-669 | a label is kept exactly when it moved by at least 2% |
| Baseline.ComparisonExact | client/src/utils/emotionAnalysis.ts:651-676 | every reported change is of at least 2%, and a label is reported exactly when it moved that much |
| Baseline.NoChangesOverItself | client/src/utils/emotionAnalysis.ts:656-669 | comparing a vector with itself keeps no change |
| Baseline.SelfComparisonEmpty | client/src/utils/emotionAnalysis.ts:651-676 | comparing the baseline with itself reports no change |
| Baseline.NotableChanges | client/src/utils/emotionAnalysis.ts:745 | keeps exactly the changes of at least 5% |
| Indicators.SequenceNotes | client/src/utils/emotionAnalysis.ts:408-409 | one indicator per sequence insight, in order |
| Indicators.GetDeceptionIndicators | client/src/utils/emotionAnalysis.ts:372-428 | the loops compute exactly the fear, conflict, micro-expression and tension blocks, in that order |
| Indicators.MicroNotes | client/src/utils/emotionAnalysis.ts:407-420 | the micro-expression loop computes exactly the micro block |
| Indicators.Conflicts | client/src/utils/emotionAnalysis.ts:389-404 | the nested loops compute exactly the conflict block |
| Indicators.ConflictsOf | client/src/utils/emotionAnalysis.ts:390-403 | the inner loop computes exactly one label's conflicts |
| Indicators.ConflictRowClosed | client/src/utils/emotionAnalysis.ts:390-403 | happy conflicts with angry then fearful, angry and fearful conflict with happy, and no other label has a conflict |
| Indicators.ConflictsClosed | client/src/utils/emotionAnalysis.ts:389-404 | the conflict block is happy/angry, happy/fearful, angry/happy, fearful/happy, each present exactly when both exceed 5% |
| Indicators.ConflictsReportedTwice | client/src/utils/emotionAnalysis.ts:389-404 | a conflict is reported exactly for happy above 5% with angry or fearful above 5%, once from each side, so there are 0, 2 or 4 |
| Indicators.ConflictsOnly | client/src/utils/emotionAnalysis.ts:389-404 | the conflict block holds only conflicts |
| Indicators.FreshIndicatorsExact | client/src/utils/emotionAnalysis.ts:412-419 | a fresh note is given exactly for each expression of at least 2% started under 1000 ms ago |
| Indicators.MicroIndicatorsKinds | client/src/utils/emotionAnalysis.ts:407-420 | the micro block holds only sequence and fresh notes, and is empty without micro-expressions |
| Indicators.InBlocks | client/src/utils/emotionAnalysis.ts:372-428 | an indicator is listed exactly when one of the four blocks holds it |
| Indicators.FearReported | client/src/utils/emotionAnalysis.ts:381-386 | fear is reported exactly above 15%, with its value; the stronger note exactly when fear also exceeds neutral |
| Indicators.TensionReported | client/src/utils/emotionAnalysis.ts:423-425 | the tension note appears exactly above 0.3, with the tension passed in |
| Indicators.NoMicroNotesWithoutMicro | client/src/utils/emotionAnalysis.ts:407 | without micro-expressions no sequence or fresh note appears |
| Indicators.NoTensionIndicatorAtZero | client/src/utils/emotionAnalysis.ts:423-425 | with a tension of 0 no tension note appears |
| Formatting.Round | client/src/utils/emotionAnalysis.ts:726 | rounds half up, like Math.round |
| Formatting.OrHalf | client/src/utils/emotionAnalysis.ts:755 | a value of 0 reads as 0.5, any other value as itself |
| Formatting.ShiftLines | client/src/utils/emotionAnalysis.ts:742-747 | there are never more lines than changes |
| Formatting.MicroLines | client/src/utils/emotionAnalysis.ts:770-772 | one line per micro-expression, with its label, intensity and significance |
| Formatting.ConflictLines | client/src/utils/emotionAnalysis.ts:773-775 | one line per transition, naming its label on both sides |
| Formatting.TruthPercentageRange | client/src/utils/emotionAnalysis.ts:726 | a probability in [0, 0.5] is shown as 50 to 100 percent; a lower non-zero probability never shows less; a probability of 0 shows as 50 |
| Formatting.ShiftLinesExact | client/src/utils/emotionAnalysis.ts:742-747 | the listed baseline changes are exactly those of at least 5% |
| Formatting.FormatExact | client/src/utils/emotionAnalysis.ts:720-778 | markers are found exactly when there is an indicator. The primary emotion is the first dominant one, and absent exactly when there is none; the rest are secondary. The evaluation bands the percentage. Each conflict line names one label twice. The baseline marks are set exactly when there is a comparison. A positive stability is shown times 100. |
| Stages.TransitionEffectsShape | client/src/utils/emotionAnalysis.ts:839-848 | the transition penalties only lower the scores, the stability cut is 4/3 of the truth cut, and there is one line per transition, describing it |
| Stages.TransitionStageLowers | client/src/utils/emotionAnalysis.ts:837-849 | the stage lowers the scores, with stability cut 4/3 of truth cut, and logs a header plus one line per transition when there is any |
| Stages.ApplyTransitions | client/src/utils/emotionAnalysis.ts:837-849 | the loop takes exactly the transition stage's cuts and appends its lines |
| Stages.DominantLines | client/src/utils/emotionAnalysis.ts:855-858 | one line per dominant entry, with its label and value |
| Stages.ApplyDominant | client/src/utils/emotionAnalysis.ts:852-858 | the loop lists the labels of the ranked entries in order and appends the dominant stage's lines |
| Stages.FearStage | client/src/utils/emotionAnalysis.ts:861-865 | above 15% fear, half the fear (more than 0.075) comes off both scores; otherwise nothing |
| Stages.GroupedLines | client/src/utils/emotionAnalysis.ts:893-895 | one line per member of a sequence group |
| Stages.InsertKeyMembers | client/src/utils/emotionAnalysis.ts:883-888 | recording a key adds exactly that key |
| Stages.InsertKeyAscending | client/src/utils/emotionAnalysis.ts:890 | recording a key keeps the keys ascending |
| Stages.ConsAscending | client/src/utils/emotionAnalysis.ts:890 | a key below every ascending key can be put in front |
| Stages.IdsExact | client/src/utils/emotionAnalysis.ts:883-888 | the ids are exactly the sequence ids of the expressions |
| Stages.KeyOrderExact | client/src/utils/emotionAnalysis.ts:883-890 | the groups are visited in ascending id order, once per id present |
| Stages.GroupMapExact | client/src/utils/emotionAnalysis.ts:883-888 | there is a group exactly per id present, non-empty, holding only expressions with that id |
| Stages.GroupsExact | client/src/utils/emotionAnalysis.ts:883-890 | the groups are visited in ascending id order, one per id present, each non-empty and holding only expressions with that id |
| Stages.KeysGrouped | client/src/utils/emotionAnalysis.ts:890 | every key visited has a group |
| Stages.GroupsEffectLowers | client/src/utils/emotionAnalysis.ts:890-910 | the group penalties lower the scores, by at most 5 points of truth per expression |
| Stages.MicroStageLowers | client/src/utils/emotionAnalysis.ts:879-911 | the micro-expression stage lowers the scores, does nothing without micro-expressions, and otherwise opens with its header |
| Stages.GroupBySequence | client/src/utils/emotionAnalysis.ts:883-888 | the reduce builds exactly the groups and their key order |
| Stages.ApplyGroup | client/src/utils/emotionAnalysis.ts:891-909 | one group takes exactly its cuts and appends its lines |
| Stages.ApplyMicroExpressions | client/src/utils/emotionAnalysis.ts:879-911 | the block takes exactly the micro-expression stage's cuts and appends its lines |
| Stages.LandmarkStageLowers | client/src/utils/emotionAnalysis.ts:914-937 | the landmark stage lowers only the truth probability, does nothing without landmarks, and reports unnatural expressions exactly when the pupils differ by more than 0.2 |
| Stages.ApplyLandmarks | client/src/utils/emotionAnalysis.ts:914-937 | the block takes exactly the landmark stage's truth cut and appends its lines |
| Stages.ApplyMetrics | client/src/utils/emotionAnalysis.ts:918-936 | the four checks take exactly the metrics' truth cut and append their lines |
| Stages.IndicatorLines | client/src/utils/emotionAnalysis.ts:943-944 | one line per indicator, in order |
| Stages.ApplyIndicators | client/src/utils/emotionAnalysis.ts:942-945 | the block appends exactly the indicator stage's lines |
| Stages.ChangeEffectsLowers | client/src/utils/emotionAnalysis.ts:951-962 | the baseline penalties lower the scores, are zero without a change of at least 10% in fear or anger, and log one line per change |
| Stages.BaselineStageLowers | client/src/utils/emotionAnalysis.ts:948-963 | the baseline stage lowers the scores and does nothing without a comparison |
| Stages.ApplyBaseline | client/src/utils/emotionAnalysis.ts:948-963 | the block takes exactly the baseline stage's cuts and appends its lines |
| Analysis.DefaultIsFormatted | client/src/utils/emotionAnalysis.ts:786-820 | the spelled-out default summary is what the formatter makes of 0.5 and 1 with nothing found, and it is banded "Ebaselge" |
| Analysis.MicroRunShape | client/src/utils/emotionAnalysis.ts:868-876 | one call's micro-expressions skip neutral, come in label order, share the call's time, carry their label's value of at least 0.5%, and raise the counter by at most one per label |
| Analysis.PenaltiesLower | client/src/utils/emotionAnalysis.ts:837-963 | every stage only lowers the scores, so together they lower them by at least what fear alone takes |
| Analysis.LatePenaltiesLower | client/src/utils/emotionAnalysis.ts:879-963 | the stages after the fear penalty only lower the scores |
| Analysis.AssembleScores | client/src/utils/emotionAnalysis.ts:828-967 | a valid call's truth probability lies in [0, 0.5] and its stability in [0, 1]. The percentage shown lies in [50, 100] and is never banded below "Ebaselge". Fear above 15% costs at least 7.5 points of both scores. |
| Analysis.AssembleTruth | client/src/utils/emotionAnalysis.ts:828-967 | truth in [0, 0.5] and stability in [0, 1]; fear above 15% costs at least 7.5 points of each |
| Analysis.AssemblePercentage | client/src/utils/emotionAnalysis.ts:726-733 | the percentage shown for a valid call lies in [50, 100] and is never banded below "Ebaselge" |
| Analysis.FormattedScores | client/src/utils/emotionAnalysis.ts:726-733 | a truth probability in [0, 0.5] is shown as 50 to 100 percent, never banded below "Ebaselge" |
| Analysis.AnalyzeBounds | client/src/utils/emotionAnalysis.ts:821-967 | an invalid sample yields the default result and changes nothing; every call keeps truth in [0, 0.5], stability in [0, 1] and the percentage in [50, 100], and leaves the baseline alone |
| Analysis.FearLowersScores | client/src/utils/emotionAnalysis.ts:861-865 | a valid sample whose normalised fear exceeds 15% ends with truth at most 0.425 and stability at most 0.925 |
| Analysis.AssembleIndicators | client/src/utils/emotionAnalysis.ts:940 | the facial tension passed on is 0, so no tension indicator appears, and the markers are found exactly when there is an indicator |
| Analysis.AssembleTrail | client/src/utils/emotionAnalysis.ts:837-840 | with transitions, the trail opens with the transitions header and has more lines than there are transitions |
| Analysis.AnalyzeReports | client/src/utils/emotionAnalysis.ts:834-945 | a valid call reports only valid transitions and no tension indicator, and finds markers exactly when there are indicators |
| Analysis.PenaltiesOpenWithTransitions | client/src/utils/emotionAnalysis.ts:837-849 | the trail starts with the transition lines |
| Analysis.AssemblePrimary | client/src/utils/emotionAnalysis.ts:736-739 | the primary emotion shown is absent exactly when no label reaches 5%; otherwise it is at least 5% and no label is stronger |
| Analysis.NoneDominant | client/src/utils/emotionAnalysis.ts:852-858 | there is no dominant emotion exactly when no label reaches 5% |
| Analysis.StrongestFirst | client/src/utils/emotionAnalysis.ts:852-858 | the first dominant emotion is at least 5% and no label is stronger |
| Analysis.HappyFearfulSample | client/src/utils/emotionAnalysis.ts:780-993 | for neutral 0.2, happy 0.6 and fearful 0.2 with no landmarks or baseline, the dominant emotions are happy, neutral, fearful, the truth probability is at most 0.425 and the markers are found |
| Session.Session.constructor | client/src/utils/emotionAnalysis.ts:146-150 | at load there is no previous sample, both histories are empty, the counter is 0 and no baseline is set |
| Session.Session.DetectEmotionChanges | client/src/utils/emotionAnalysis.ts:477-558 | the returned transitions and the new tracker fields are exactly those of Observe; the micro-expression history and the baseline are untouched |
| Session.Session.AnalyzeMicroExpression | client/src/utils/emotionAnalysis.ts:600-641 | the returned record and the new history fields are exactly those of MicroStep; the tracker and the baseline are untouched |
| Session.Session.SetBaselineEmotions | client/src/utils/emotionAnalysis.ts:712-714 | the baseline becomes the normalised sample and nothing else changes |
| Session.Session.ClearBaselineEmotions | client/src/utils/emotionAnalysis.ts:716-718 | the baseline is cleared and nothing else changes |
| Session.Session.AnalyzeEmotions | client/src/utils/emotionAnalysis.ts:780-993 | the result and the new state are exactly those of Analyze |
| Session.Session.AnalyzeSample | client/src/utils/emotionAnalysis.ts:826-993 | for a valid sample the result and the new state are exactly those of the specification |
| Session.Session.CollectMicroExpressions | client/src/utils/emotionAnalysis.ts:868-876 | the loop collects exactly the micro-expressions of MicroRun and leaves the detector state as MicroRun does |
| Session.ScanLabels | client/src/utils/emotionAnalysis.ts:491-545 | the label loop builds exactly the scan, and the last valid transition it leaves |
| Session.NextMicroExpression | client/src/utils/emotionAnalysis.ts:605-640 | the steps of analyzeMicroExpression compute exactly MicroStep |
| Session.OpeningStages | client/src/utils/emotionAnalysis.ts:828-865 | starting from 0.5 and 1, the accumulation takes exactly the cuts of the transition, dominant and fear stages and logs their lines |
| Session.ClosingStages | client/src/utils/emotionAnalysis.ts:879-963 | the rest of the accumulation takes exactly the cuts of the micro-expression, landmark, indicator and baseline stages and logs their lines |
| Session.FinishAnalysis | client/src/utils/emotionAnalysis.ts:940-993 | from the opening values, the rest of the call produces exactly the specified result |
| Session.LateScores | client/src/utils/emotionAnalysis.ts:940-963 | the indicators, the comparison and the accumulated scores are exactly those of the specification |
| Session.PenaltyScores | client/src/utils/emotionAnalysis.ts:879-963 | continuing from any opening stages, the later stages leave exactly their combination |
| Session.BaselineRoundTrip | client/src/utils/emotionAnalysis.ts:712-714 | a baseline just set from a sample, compared with that normalised sample, reports no change |

## Left out

- Validation of non-numbers: `isValidEmotions` also rejects values that are not numbers or are NaN. Reals have no NaN, so a sample is a map from label to real, and a missing or non-numeric label is an absent key.
- Key order of a sample: every sample is taken to list its keys as neutral, happy, sad, angry, fearful, disgusted, surprised. A caller object with another key order is not modelled. Such an order would change the order of the transitions, which of two tied dominant labels comes first, and the order of one call's micro-expressions, and with it which happy→fearful, happy→surprised and neutral→fearful pairs get flagged.
- Extra keys in a sample: keys beyond the seven labels are not modelled. In the source, `normalizeEmotions` would add them to the sum and carry them along.
- Number formatting: `formatPercentage` and the `toFixed` calls (lines 188-190, 746, 952) are left out. Every text becomes a tagged datatype carrying the numbers the text shows.
- `relatedExpressions` (line 631) is not modelled: it aliases part of the history into the record and nothing reads it.
- Wall clock: the clock reads at lines 149, 378, 479 and 868 are parameters: `loadTime` of the constructor, `now`, and the three fields of `Clock`.
- Floating point: all values are unbounded reals, so IEEE-754 rounding of the sums, quotients and penalties is not modelled.
- Landmark arrays: `WellFormed` requires them to be non-empty, with at least two mouth corners. With empty lid or eyebrow arrays the source computes NaN or -Infinity. With an empty `leftEye.corner` or `rightEye.corner` (line 434), or fewer than two `mouth.corners` (lines 465-466), the source throws a TypeError out of `analyzeEmotions`. Neither behaviour is modelled.
- Unused landmark data: the `nose` and `faceShape` landmarks and `LANDMARK_THRESHOLDS.PUPIL_DILATION` are read by nothing, so they are not modelled.
- Default arguments: `question` and `answer` default to `""`. Callers pass them explicitly.
- Session.Session.DetectEmotionChanges: within one call, `lastValidTransition` is updated on a local variable and written to the field once at the end. The source writes the field inside the loop, but nothing else reads it during the call.
- Session.Session.AnalyzeMicroExpression: the counter increment `++lastSequenceId` is computed on a local value and written once.
- Analysis.HappyFearfulSample: bounds the truth probability by 0.425, the bound any fear above 15% gives, not the 0.4 that fear 0.2 alone takes off.
- Outside the engine: the React components, the video capture loop, speech recognition, the Express server and the type declaration files are not part of this model. They are UI, browser I/O and network code.
