# A verified model of the street search, the rhythm game and the hand-gesture scene

The repository behind this model holds several small programs. They share one author and one
site:

- **Street-name search widget** (`script.js`). It normalises the query, scores every
  spreadsheet row with a Levenshtein similarity, and keeps the close or containing matches
  sorted by score. It also has the "best"/"all" result modes, the suggestion list and the
  rule that exactly one input box may be filled.
- **Street-index converter page** (`convertorver2/script.js`). It has its own edit-distance
  table and a search over five columns with a 0.85 threshold. It parses the "(y, x)"
  coordinate cell, merges or selects data sources, and searches with the first filled input
  box.
- **XLSX file server** (`streetIndexConvertor/server.py`). It routes `/api/xlsx/` requests
  and decides 200/404/403 against a fixed allow-list.
- **MIR rhythm game**, with these parts:
  - the Java-style 32-bit string hash (`MIR/js/mathUtils.js`);
  - the score/combo/accuracy keeper (`MIR/js/scoreManagement.js`);
  - the hand-box hit test (`MIR/js/collisionDetection.js`);
  - the falling boxes (`MIR/js/3DAnimation.js`);
  - the palm-size depth heuristic and the hand records (`MIR/js/handDetection.js`);
  - the song fetcher with its beat-map conversion (`MIR/js/dataFetch.js`).
- **Archived beat-map builder** (`backend/_archive/music.py`). It has the min-max
  normalisation, the moving-average window and the beat-selection loop with its `no_skip`
  flag.
- **Hand-gesture 3D scene**, with these parts:
  - the hand cursor (`js/HandControls.js`): fist test, depth mapping, gesture events, and
    the collision/selection/drag pass;
  - the finger classification (`js/GestureDetector.js`, `js/phases/TestPhase.js`);
  - the flying boxes (`js/GameController.js`, `js/phases/Phase1.js`);
  - the selection menu (`3D_control/js/phases/SelectionMenu.js`), meaning its per-hand
    collision diffing, its option selection, its greedy word wrap and its single selection
    sprite;
  - the 3D scene's song fetcher (`3D_control/js/DataFetcher.js`).

One Dafny module models each of these files. The model keeps the source's form:

- Objects whose fields the code updates are classes, with `modifies` clauses:
  - score manager, collision detector, game animator, hand detector;
  - song fetchers, menu, hand controls, game controller, file handler;
  - the box meshes, scene objects and beat dictionaries that the code mutates through
    shared references.
- Loops are methods with invariants. Each loop is proved against a specification function,
  and the lemmas about that function give the properties.
- Pure code is functions and lemmas.

Five helper modules hold shared concepts:

- `Text`: trim, lower case, `includes`, `split`/`join` and strip;
- `EditDistance`: the Levenshtein recurrence and its table-filling loops, shared by both
  street pages;
- `Sorting`: a stable insertion sort by a comparator, standing for `Array.prototype.sort`;
- `Geometry`: vectors, squared distances, a square-root function characterised by a
  predicate, clamp and lerp;
- `Songs`: the `filter`/`find` queries both song fetchers use.

The model follows the code even where the comments or names say something else:

- `handleGestureEvents` dispatches `"opened_fist"` when the fist *is* closed, and
  `"closed_fist"` plus `"drag_end"` when it is open. The names look swapped. The model keeps
  them as written (`HandControls.GestureEvents`).
- `calculateHandDepth` says it averages the wrist distances, but it takes their maximum. The
  model takes the maximum (`HandDetection.PalmSize`).
- The test phase classifies the thumb with threshold 0.4. The gesture detector uses 0.3.
  Both are kept, and `TestPhase.TestThumbStricter` relates them.
- `min_max_normalize` raises `ValueError` on empty input and `ZeroDivisionError` when every
  x is the same, before it writes anything. A constant y does not raise. The y values are
  `numpy.int64` peak bins, so 0 / 0 there gives NaN and the loop carries on. The function
  mutates the dictionaries it returns. The model keeps all of these behaviours
  (`Music.MinMaxNormalize`).

## Model

| member | source | states |
|---|---|---|
| Text.TrimStartDropsSpaces | script.js:52 | the characters trimming removes from the start are white space |
| Text.TrimEndDropsSpaces | script.js:52 | the characters trimming removes from the end are white space |
| Text.TrimKeepsCount | script.js:52 | trimming never changes how often a non-space character occurs |
| Text.TrimFixed | script.js:52 | a string that neither starts nor ends with white space is kept by trim |
| Text.Trim | script.js:52 | the trimmed string is no longer than the input and neither starts nor ends with white space |
| Text.Lower | script.js:52 | `toLowerCase` keeps the length and maps each character to its lower-case form |
| Text.LowerIdempotent | script.js:52 | lower-casing twice is lower-casing once |
| Text.IncludesAt | script.js:99 | `includes` holds exactly when the needle occurs at some position of the text |
| Text.IncludesSelf | script.js:99 | every string contains itself |
| Text.Split | convertorver2/script.js:39 | `split` always gives at least one part |
| Text.SplitPartsFree | convertorver2/script.js:39 | no part of a split contains the separator |
| Text.SplitNoSep | convertorver2/script.js:39-40 | a text without the separator splits into itself alone |
| Text.SplitAtFirst | convertorver2/script.js:39-40 | the first part is the text before the first separator and the rest is the split of what follows it |
| Text.SplitCount | convertorver2/script.js:40 | the number of parts is the number of separators plus one |
| Text.JoinSplit | convertorver2/script.js:39 | joining the parts with the separator gives the text back |
| Text.RemoveChars | convertorver2/script.js:38 | `replace(/[()]/g, '')` leaves none of the removed characters |
| Text.RemoveCharsKeepsCount | convertorver2/script.js:38 | removing characters keeps the count of every character that is not removed |
| Text.RemoveCharsNone | convertorver2/script.js:38 | a text without any removed character is kept unchanged |
| Text.StripChar | streetIndexConvertor/server.py:27 | `strip("/")` is never longer and leaves no slash at either end |
| EditDistance.Min3 | script.js:75-79 | `Math.min` of three values is one of them and at most each of them |
| EditDistance.DistToEmpty | script.js:70-71 | the table's first row and first column hold the distance to the empty prefix, which is its length |
| EditDistance.DistUpper | script.js:72-81 | the distance is at most the longer prefix length |
| EditDistance.DistLower | script.js:72-81 | the distance is at least the difference of the two prefix lengths |
| EditDistance.DistSelf | script.js:72-81 | a string is at distance 0 from itself |
| EditDistance.DistZero | script.js:72-81 | distance 0 between two prefixes means they have the same length and are equal |
| EditDistance.LevenshteinBounds | script.js:82 | the full distance lies between the length difference and the longer length |
| EditDistance.DistSymmetric | convertorver2/script.js:93-99 | the distance does not depend on which string indexes rows and which columns |
| EditDistance.LevenshteinZeroIff | convertorver2/script.js:93-99 | the distance is 0 exactly when the strings are equal |
| EditDistance.Similarity | convertorver2/script.js:107 | 1 − d/max(|a|,|b|) lies in [0, 1] and is 1 exactly for equal strings |
| EditDistance.RatioBounds | script.js:91-92 | with a non-empty string, 1 − distance/maxLen lies in [0, 1] |
| EditDistance.FillRow | script.js:72-81 | one outer iteration writes row j of the table with the recurrence, leaving the earlier rows as they were |
| EditDistance.FillCell | script.js:73-80 | one inner iteration writes cell (j, i) as the minimum of the three neighbouring moves |
| Sorting.Sort | script.js:110 | the sort returns a permutation of its input (same multiset, same length) |
| Sorting.SortSorted | script.js:110 | under a total preorder the sorted list is ordered by the comparator |
| Sorting.InsertSorted | script.js:119 | inserting into an ordered list keeps it ordered |
| StreetSearch.NormalizeInput | script.js:50-58 | an empty input gives an empty query of the field's type; otherwise the text is trimmed and lower-cased, and free text is an index query exactly when it contains '.' |
| StreetSearch.NormalizeIdempotent | script.js:50-58 | normalising an already normalised query text gives the same query |
| StreetSearch.Ratio | script.js:90-92 | similarity lies in [0, 1] (0 without dividing when both strings are empty) and is 1 exactly for equal non-empty strings |
| StreetSearch.Similarity | script.js:88-102 | a row's score always lies in [0, 1] |
| StreetSearch.SimilarityEmpty | script.js:91-92 | index mode with an empty query and an empty index scores 0 |
| StreetSearch.SimilarityContained | script.js:99-101 | in name mode a historical name containing the query scores exactly 1 |
| StreetSearch.SimilarityExact | script.js:104 | a target equal to the query scores 1 in either mode |
| StreetSearch.MatchesShape | script.js:85-107 | the pushed results are exactly the reported rows, each with its own score, and a data row occurring n times is reported n times when it passes the inclusion test and 0 times otherwise |
| StreetSearch.MatchesAppend | script.js:85-107 | the matches of two concatenated data lists are the matches of the first followed by those of the second, so the results keep data order |
| StreetSearch.SearchCorrect | script.js:62-111 | an empty query or no data gives []; otherwise a scored row is in the result exactly when the row is in the data, passes the inclusion test and carries its own score; each reported row appears as many times as it occurs in the data, all scores lie in [0, 1], and the result is sorted by similarity descending |
| StreetSearch.Levenshtein | script.js:68-83 | the nested loops over the (|b|+1)×(|a|+1) table return the Levenshtein distance of the two strings |
| StreetSearch.Search | script.js:62-111 | the method's result equals the search specification, so SearchCorrect applies to it |
| StreetSearch.FilterResultsByModeCorrect | script.js:114-121 | 'best' keeps only the first result (at most one); any other mode keeps the same results as a permutation, ordered by modern name |
| StreetSearch.GenerateSuggestions | script.js:124-130 | no results give the single "no match" placeholder; otherwise at most three suggestions, one per top result in order, labelled by index or historical name according to the query type |
| StreetSearch.GetCurrentData | script.js:42-47 | 'en' gives the English set, 'zh' the Chinese set, anything else both concatenated |
| StreetSearch.SelectField | script.js:251-264 | a field is chosen exactly when exactly one input box is non-empty, and it is that box with its field |
| StreetSearch.FilterNonEmpty | script.js:266-271 | the filtered results are empty exactly when the results are, so a top result exists after a non-empty search |
| StreetSearch.SearchForm.HandleSearchButton | script.js:245-279 | with not exactly one filled box, only the error is shown; otherwise the results, the filled-in top result and the cleared free-text box are shown, or "No matches found." when nothing matched |
| StreetSearch.SearchForm.ShowResults | script.js:266-278 | the displayed table is the filtered results, and the boxes hold the top result's modern (or historical) name and its index |
| StreetIndex.Sim | convertorver2/script.js:107 | with a non-empty term the divisor is at least 1, the similarity lies in [0, 1], and it is 1 exactly when the value equals the term |
| StreetIndex.Lev | convertorver2/script.js:93-99 | the table filled column first, then row 0, then the rest, returns the Levenshtein distance |
| StreetIndex.SearchCorrect | convertorver2/script.js:100-116 | an empty term gives []; otherwise a hit is in the result exactly when its row is in the data and its column value contains the term or has similarity above 0.85, tagged with that similarity; at most 5·|data| hits, sorted by sim descending |
| StreetIndex.Search | convertorver2/script.js:100-116 | the method's result is the search specification |
| StreetIndex.RowHits | convertorver2/script.js:105-113 | the inner forEach pushes the hits of one row over the five columns in order |
| StreetIndex.ColumnHitsShape | convertorver2/script.js:105-113 | a row yields at most one hit per visited column, each tagged with the column whose value passed the test |
| StreetIndex.ColumnHitsOrdered | convertorver2/script.js:105 | hits of a row follow the fixed column order, so no column appears twice |
| StreetIndex.RowHitsDistinct | convertorver2/script.js:105-113 | the hits of one row carry pairwise different columns |
| StreetIndex.HitsBound | convertorver2/script.js:103-114 | there are at most 5·|data| hits |
| StreetIndex.HitsMembers | convertorver2/script.js:108 | a (row, column) pair is a hit exactly when the value contains the term or its similarity exceeds 0.85 |
| StreetIndex.TrimEach | convertorver2/script.js:39 | every part is trimmed and the number of parts is kept |
| StreetIndex.ParseCoordsCases | convertorver2/script.js:34-45 | both coordinates are NaN unless the cell is a string whose cleaned text has exactly one comma; then they are parseFloat of the two trimmed parts |
| StreetIndex.ParseCoordsWritten | convertorver2/script.js:36-44 | a cell written "(a,b)" with clean halves parses to parseFloat(a) and parseFloat(b) |
| StreetIndex.GetCurrentDataCorrect | convertorver2/script.js:155-158 | 'both' holds exactly the rows of all loaded sets; another id gives the set stored under it, and an unknown id gives [] |
| StreetIndex.FlattenMembers | convertorver2/script.js:157 | the concatenation holds exactly the rows of the loaded sets |
| StreetIndex.LookupFirst | convertorver2/script.js:157 | an id gives the first set stored under it, and an unknown id gives [] |
| StreetIndex.FirstActiveCorrect | convertorver2/script.js:222-224 | the active input is the first box in the order name, modern, index, general whose trimmed value is non-empty, and none is active when all are blank |
| StreetIndex.FinalHits | convertorver2/script.js:227 | 'best' keeps at most the top hit; other modes keep every hit |
| StreetIndex.SearchPage.HandleSearch | convertorver2/script.js:221-231 | with no filled box only "Enter one field" is shown; otherwise the final hits of the trimmed, lower-cased input are displayed and the error line is cleared |
| StreetIndex.SearchPage.ShowHits | convertorver2/script.js:227-230 | the displayed results are the final hits, the suggestions are hidden and the error line is empty |
| MathUtils.ToInt32 | MIR/js/mathUtils.js:9 | `\|= 0` gives a signed 32-bit integer congruent to its operand modulo 2^32 |
| MathUtils.ToInt32Congruent | MIR/js/mathUtils.js:9 | ToInt32 depends only on the residue modulo 2^32 |
| MathUtils.ToInt32Identity | MIR/js/mathUtils.js:9 | signed 32-bit values pass through unchanged |
| MathUtils.ShiftLeft5 | MIR/js/mathUtils.js:8 | `h << 5` always gives a signed 32-bit value |
| MathUtils.HashOf | MIR/js/mathUtils.js:2-12 | the hash is always a signed 32-bit integer |
| MathUtils.Hash | MIR/js/mathUtils.js:2-12 | the loop returns HashOf of the code units, 0 for the empty string |
| MathUtils.StepIsJavaStep | MIR/js/mathUtils.js:7-9 | one shift-subtract-add step followed by `\|= 0` equals Java's 31·h + c in 32 bits |
| MathUtils.HashEmpty | MIR/js/mathUtils.js:5 | the empty string hashes to 0 |
| MathUtils.HashIsPolynomial | MIR/js/mathUtils.js:6-10 | the hash is the base-31 value of the code units reduced to signed 32 bits (Java's String.hashCode) |
| MathUtils.HashAppend | MIR/js/mathUtils.js:6-10 | hash(s + c) = ToInt32(31·hash(s) + c) |
| MathUtils.HashSingle | MIR/js/mathUtils.js:6-9 | a one-character string hashes to its UTF-16 code unit |
| ScoreManagement.Round | MIR/js/scoreManagement.js:18 | Math.round gives the integer within a half below and strictly less than a half above |
| ScoreManagement.Accuracies | MIR/js/scoreManagement.js:22 | the history gains the accuracies of the collisions, in order |
| ScoreManagement.Accuracy | MIR/js/scoreManagement.js:74-79 | 0 with no boxes, otherwise hits/(hits + missed)·100 |
| ScoreManagement.AccuracyBounds | MIR/js/scoreManagement.js:74-79 | the hit percentage lies in [0, 100] |
| ScoreManagement.ScoreManager.constructor | MIR/js/scoreManagement.js:2-12 | everything starts at zero with an empty history |
| ScoreManagement.ScoreManager.UpdateScore | MIR/js/scoreManagement.js:14-33 | n collisions raise the combo by n, add each collision's combo-scaled points, append the accuracies in order, and keep maxCombo ≥ combo |
| ScoreManagement.ScoreManager.MissedNote | MIR/js/scoreManagement.js:35-40 | the combo drops to 0 and the miss count grows by one; score, best combo and history are unchanged |
| ScoreManagement.ScoreManager.GetAccuracy | MIR/js/scoreManagement.js:74-79 | the accuracy is the hit percentage of history length and misses, in [0, 100] |
| ScoreManagement.ScoreManager.GetGameStats | MIR/js/scoreManagement.js:81-98 | totalBoxes = totalHits + boxesMissed, and averageAccuracy is the mean of the history (0 without hits) |
| ScoreManagement.ScoreManager.Reset | MIR/js/scoreManagement.js:100-107 | score, combo, best combo and history are cleared; the miss count is kept |
| ScoreManagement.PointsIgnoreAccuracy | MIR/js/scoreManagement.js:16-24 | two runs of collisions with the same base points earn the same, whatever their accuracies |
| ScoreManagement.PointsOnStreak | MIR/js/scoreManagement.js:17-19 | at combo k a 100-point box earns 100 + 10k |
| ScoreManagement.PointsGrowWithCombo | MIR/js/scoreManagement.js:17-19 | with non-negative base points a higher combo never earns fewer points |
| ScoreManagement.AverageBounds | MIR/js/scoreManagement.js:86-88 | the average of accuracies in [0, 100] lies in [0, 100] |
| ScoreManagement.SumBounds | MIR/js/scoreManagement.js:86-88 | a sum of values in [0, 100] lies between 0 and 100 times their number |
| CollisionDetection.AccuracyRange | MIR/js/collisionDetection.js:37-41 | the accuracy lies in [0, 100], and is NaN only for a zero distance at a zero threshold |
| CollisionDetection.AccuracyLinear | MIR/js/collisionDetection.js:37-41 | inside the threshold the accuracy is (1 − d/threshold)·100, from 100 at the centre |
| CollisionDetection.AccuracyMonotone | MIR/js/collisionDetection.js:37-41 | with a positive threshold a closer hit never scores lower |
| CollisionDetection.DistanceFacts | MIR/js/collisionDetection.js:30-35 | the distance is non-negative and 0 from a point to itself |
| CollisionDetection.Picked | MIR/js/collisionDetection.js:9-27 | the reported indices are valid box positions |
| CollisionDetection.Marked | MIR/js/collisionDetection.js:17-18 | after the pass a box is hit exactly when it was hit before or lies within the threshold; positions and points are kept |
| CollisionDetection.PickedMembers | MIR/js/collisionDetection.js:10-17 | a box index is reported exactly when the box was not hit before, is closer than the threshold, and is its object's first occurrence |
| CollisionDetection.PickedIncreasing | MIR/js/collisionDetection.js:9 | reports follow the order of the boxes |
| CollisionDetection.ReportsArePicked | MIR/js/collisionDetection.js:19-23 | each report carries the box, its distance and its accuracy |
| CollisionDetection.ReportsSound | MIR/js/collisionDetection.js:10-17 | every reported box was not hit before and lies closer than the threshold |
| CollisionDetection.ReportsOncePerBox | MIR/js/collisionDetection.js:17 | no box object is reported twice, even when it is listed twice |
| CollisionDetection.ReportsComplete | MIR/js/collisionDetection.js:10-23 | every box not hit before and closer than the threshold is reported |
| CollisionDetection.SecondCallReportsNothing | MIR/js/collisionDetection.js:10-17 | repeating the call with the same hand position after the marking reports nothing |
| CollisionDetection.CollisionDetector.constructor | MIR/js/collisionDetection.js:2-4 | the threshold starts at 0.5 |
| CollisionDetection.CollisionDetector.CalculateAccuracy | MIR/js/collisionDetection.js:37-41 | the accuracy with the current threshold, in [0, 100] unless NaN |
| CollisionDetection.CollisionDetector.SetCollisionThreshold | MIR/js/collisionDetection.js:43-45 | the threshold is replaced |
| CollisionDetection.CollisionDetector.CheckCollision | MIR/js/collisionDetection.js:6-28 | the result is the specified reports; box states become Marked and nothing else changes |
| CollisionDetection.CollisionDetector.Visit | MIR/js/collisionDetection.js:9-26 | one turn of the pass reports and marks box k exactly when it is a fresh hit |
| CollisionDetection.CollisionDetector.Probe | MIR/js/collisionDetection.js:10-24 | a probe of a box is a report exactly when it was not hit and lies closer than the threshold, and then the box is marked |
| GameAnimation.Placed | MIR/js/3DAnimation.js:77-90 | the box sits at (4x − 2, 4y − 2, −20), is not hit and carries the beat's points and time |
| GameAnimation.Survivors | MIR/js/3DAnimation.js:98-113 | the survivors are never more than the boxes |
| GameAnimation.KeptSurvivors | MIR/js/3DAnimation.js:98-113 | dropping the boxes whose moved state fails the test is the survivor filter |
| GameAnimation.SpliceStep | MIR/js/3DAnimation.js:109-111 | splicing out box i during the back-to-front walk keeps the boxes not yet visited at their places |
| GameAnimation.SurvivorsMembers | MIR/js/3DAnimation.js:109 | a box stays exactly when it does not pass the removal test |
| GameAnimation.SurvivorsKept | MIR/js/3DAnimation.js:109-112 | no surviving box is hit or beyond z = 5 |
| GameAnimation.SurvivorsAppend | MIR/js/3DAnimation.js:98-113 | the filter works piece by piece, so the survivors keep their order |
| GameAnimation.SurvivorsDistinct | MIR/js/3DAnimation.js:98-113 | survivors of distinct boxes are distinct |
| GameAnimation.GameAnimator.CreateBox | MIR/js/3DAnimation.js:68-95 | a fresh box placed for the beat is appended to the boxes and returned |
| GameAnimation.GameAnimator.UpdateBoxes | MIR/js/3DAnimation.js:97-114 | every box moves by speed and turns by 0.01; the boxes become the survivors of the moved states, in order, never more than before |
| GameAnimation.GameAnimator.Visit | MIR/js/3DAnimation.js:99-112 | box i moves and turns, and is spliced out exactly when it fails the test |
| GameAnimation.GameAnimator.Clear | MIR/js/3DAnimation.js:126-130 | no box is left |
| GameAnimation.GameAnimator.constructor | MIR/js/3DAnimation.js:2-11 | a new animator has no boxes |
| Music.RoundHalfEvenNearest | backend/_archive/music.py:23-24 | Python's round is within a half of its argument, and even on a tie |
| Music.RoundHalfEvenMonotone | backend/_archive/music.py:23-24 | rounding never reverses an order |
| Music.Round2Close | backend/_archive/music.py:23-24 | round(v, 2) is within half a hundredth of v |
| Music.Round2Idempotent | backend/_archive/music.py:23-24 | a multiple of 0.01 is kept by round(v, 2) |
| Music.Round2Unit | backend/_archive/music.py:23-24 | round(v, 2) keeps [0, 1] and both its ends |
| Music.Round2Monotone | backend/_archive/music.py:23-24 | round(v, 2) never reverses an order |
| Music.Window | backend/_archive/music.py:32-33 | 0 ≤ start, end ≤ len(beats), the window holds at most 2w + 1 beats, and it contains the beat when the beat is in range |
| Music.WindowEnergies | backend/_archive/music.py:36 | the window's energies are those of the beats in [start, end) |
| Music.MovingAverageEnergy | backend/_archive/music.py:29-37 | the mean energy of the window lies between the least and the greatest energy in it; it has no value exactly when the window is empty (numpy's mean of nothing), and always has one for a beat in range |
| Music.Mean | backend/_archive/music.py:36 | the mean of a non-empty list lies between its least and its greatest element |
| Music.GroupClimax | backend/_archive/music.py:79-93 | an onset has a climax entry (type 2, 150 points) exactly when its energy is above the high threshold and it is not the last onset |
| Music.GroupRegular | backend/_archive/music.py:96-108 | an onset has a regular entry (type 1, 100 points) exactly when its energy is above the low threshold, and then no_skip is set |
| Music.GroupLow | backend/_archive/music.py:109-124 | a low-energy onset has a type-0 entry (50 points) exactly when no_skip was set, which it then clears; a skipped one sets it again |
| Music.LowOnsetsAlternate | backend/_archive/music.py:109-124 | of two consecutive low-energy onsets exactly one has a low entry |
| Music.LowOnsetsOneEntry | backend/_archive/music.py:109-124 | with the thresholds in order, two consecutive low-energy onsets give exactly one entry between them |
| Music.GroupShape | backend/_archive/music.py:79-124 | every onset adds at most two entries, each made from that onset, of type 2 with 150 points, type 1 with 100 or type 0 with 50 |
| Music.BeatMapShape | backend/_archive/music.py:71-124 | the beat map has at most two entries per onset, all with z 0, each made from one onset |
| Music.BeatMapTimesOrdered | backend/_archive/music.py:71-124 | with onset times increasing, entry times never decrease |
| Music.BeatMapStep | backend/_archive/music.py:71-124 | each onset appends its group to the beat map |
| Music.SelectBeats | backend/_archive/music.py:60-124 | the loop builds fresh, distinct dictionaries whose contents are the beat map of the onsets |
| Music.SelectBeat | backend/_archive/music.py:71-124 | one pass of the loop appends the onset's group and updates no_skip as specified |
| Music.SelectClimax | backend/_archive/music.py:79-93 | the climax check appends the climax entry exactly when specified |
| Music.SelectRegular | backend/_archive/music.py:96-124 | the regular-or-low check appends the specified entry and returns the new flag |
| Music.NormalizeErrorCases | backend/_archive/music.py:17-24 | only empty input raises the empty-sequence error; a non-empty input raises ZeroDivisionError exactly when all x are equal, and a constant y raises nothing |
| Music.ConstantRange | backend/_archive/music.py:17-18 | min equals max exactly when all values are equal |
| Music.ConstantY | backend/_archive/music.py:18 | the y minimum equals the y maximum exactly when all y are equal |
| Music.NormalizeValues | backend/_archive/music.py:21-25 | a successful normalisation keeps length, order and every other key; it sets x to (x − min)/(max − min) and y the same way over its own range, NaN when that range is zero |
| Music.NormalizeBounded | backend/_archive/music.py:23-24 | every normalised x lies in [0, 1]; every y is NaN exactly when all y are equal, and otherwise lies in [0, 1] |
| Music.NormalizeEnds | backend/_archive/music.py:23-24 | the smallest x becomes 0 and the largest becomes 1, and the same holds for y when its range is not zero |
| Music.NormalizedRange | backend/_archive/music.py:12-27 | after a successful normalisation x ranges over exactly [0, 1], and so does y when its range was not zero |
| Music.NormalizeIdempotent | backend/_archive/music.py:12-27 | when the y range is not zero, normalising a normalised beat map raises nothing and changes nothing |
| Music.ScaleUnit | backend/_archive/music.py:23 | scaling maps [lo, hi] into [0, 1], lo to 0 and hi to 1 |
| Music.ScaleY | backend/_archive/music.py:24 | dividing a NumPy integer difference by a zero range gives NaN rather than raising, and only then |
| Music.ScaleFixed | backend/_archive/music.py:23-24 | rescaling a value already rescaled against [0, 1] leaves it unchanged |
| Music.MinMaxNormalize | backend/_archive/music.py:12-27 | the same dictionaries are returned with their contents normalised; empty input raises the empty-sequence error and a constant x raises ZeroDivisionError, both before any dictionary is written |
| Music.RescaleEach | backend/_archive/music.py:21-25 | the loop rescales each dictionary in order; it fails exactly when the x range is zero, and then nothing has been written |
| Music.NormalizeItem | backend/_archive/music.py:22-25 | one item gets x then y rescaled, y becoming NaN on a zero y range; a zero x range fails at the first item before anything is written |
| Music.ExtractMusicFeatures | backend/_archive/music.py:60-128 | the beat map of the given onsets, whose y values are all numbers, is built and then normalised, with the normaliser's outcome returned |
| SelectionMenu.OptionText | 3D_control/js/phases/SelectionMenu.js:16 | a valid option id gives its text |
| SelectionMenu.Without | 3D_control/js/phases/SelectionMenu.js:193-194 | the filter keeps exactly the elements of a that are not in b, each as many times as it occurs in a |
| SelectionMenu.WithoutAppend | 3D_control/js/phases/SelectionMenu.js:193-194 | appending an element to a appends it to the filter's result exactly when it is not in b, so the filter keeps a's order |
| SelectionMenu.WithoutNothing | 3D_control/js/phases/SelectionMenu.js:189-195 | removing nothing keeps the list and its order |
| SelectionMenu.WithoutAll | 3D_control/js/phases/SelectionMenu.js:189-195 | removing a superset leaves nothing |
| SelectionMenu.GestureDiff | 3D_control/js/phases/SelectionMenu.js:186-199 | with an unchanged fist state, newCollided is current minus previous and newNotCollided is previous minus current, each keeping the multiplicity of its source list; with a changed or first state, all current objects are new and none are gone |
| SelectionMenu.GestureDiffAppend | 3D_control/js/phases/SelectionMenu.js:193 | with an unchanged fist state, one more current object is appended to newCollided exactly when it was not collided before, so newCollided keeps the order of the current list |
| SelectionMenu.SteadyGestureNoChange | 3D_control/js/phases/SelectionMenu.js:189-195 | the same fist over the same objects yields no change |
| SelectionMenu.FirstGestureAllNew | 3D_control/js/phases/SelectionMenu.js:197-199 | on a hand's first frame all its collisions are new |
| SelectionMenu.PhaseAfterCases | 3D_control/js/phases/SelectionMenu.js:244-254 | id 0 leads to phase −1, id 1 to phase 1, any other id leaves the phase |
| SelectionMenu.Ids | 3D_control/js/phases/SelectionMenu.js:220 | the ids of the new objects, in order |
| SelectionMenu.OpenFistSelectsNothing | 3D_control/js/phases/SelectionMenu.js:217 | only a closed fist selects |
| SelectionMenu.UndefinedIdsSkipped | 3D_control/js/phases/SelectionMenu.js:222-223 | objects without an id are skipped |
| SelectionMenu.NoTextOutsideMenu | 3D_control/js/phases/SelectionMenu.js:261-262 | outside phase 0 the shown text is kept and the phase stays off 0 |
| SelectionMenu.SelectAllPhase | 3D_control/js/phases/SelectionMenu.js:216-239 | ids other than 0 and 1 leave the phase; once 0 or 1 is among them the phase ends at −1 or 1 |
| SelectionMenu.SelectingPhaseShowsNoText | 3D_control/js/phases/SelectionMenu.js:225-226 | choosing "Test Phase" or "Game Phase 1" leaves the menu, so its text is not shown |
| SelectionMenu.Lines | 3D_control/js/phases/SelectionMenu.js:100-104 | each line is its words joined with single spaces |
| SelectionMenu.GroupsPartition | 3D_control/js/phases/SelectionMenu.js:92-106 | the lines hold all words in order, each line at least one word |
| SelectionMenu.GroupsGreedy | 3D_control/js/phases/SelectionMenu.js:96-104 | a line of two or more words fits, and a line ends only where its next word would not fit |
| SelectionMenu.GroupsFirst | 3D_control/js/phases/SelectionMenu.js:94 | the first line starts with the words already taken |
| SelectionMenu.JoinFlatten | 3D_control/js/phases/SelectionMenu.js:92-106 | joining the lines with spaces joins all the words with spaces |
| SelectionMenu.WrapProperties | 3D_control/js/phases/SelectionMenu.js:92-106 | the lines joined with single spaces give the label back, and a line wider than the limit is a single word |
| SelectionMenu.WrapLabel | 3D_control/js/phases/SelectionMenu.js:92-106 | the label split at spaces and wrapped gives the specified lines |
| SelectionMenu.WrapWords | 3D_control/js/phases/SelectionMenu.js:94-106 | the loop over the words builds the greedy lines |
| SelectionMenu.Remove | 3D_control/js/phases/SelectionMenu.js:265-268 | the removed sprite is gone and every other object is kept |
| SelectionMenu.Menu.SpritesInScene | 3D_control/js/phases/SelectionMenu.js:265-300 | at most one selection sprite is among the scene objects, and it is the current one |
| SelectionMenu.Menu.constructor | 3D_control/js/phases/SelectionMenu.js:12-16 | the three dictionaries start empty and the greeting is shown in phase 0 |
| SelectionMenu.Menu.HandleCollision | 3D_control/js/phases/SelectionMenu.js:207-210 | the hand's collisions become the event's objects, or [] without any; nothing else changes |
| SelectionMenu.Menu.HandleGesture | 3D_control/js/phases/SelectionMenu.js:178-204 | the hand's previous fist state becomes the command and its previous collisions a copy of its collisions, other hands untouched, and the menu shows the effect of its new collisions |
| SelectionMenu.Menu.HandleNewCollisions | 3D_control/js/phases/SelectionMenu.js:216-239 | a closed fist with new collisions selects their defined ids in order; otherwise nothing changes |
| SelectionMenu.Menu.SelectOne | 3D_control/js/phases/SelectionMenu.js:223-227 | one defined id switches the phase and shows its text as specified |
| SelectionMenu.Menu.HandleSelection | 3D_control/js/phases/SelectionMenu.js:244-254 | the phase becomes PhaseAfter of the id and the scene objects are kept |
| SelectionMenu.Menu.ShowSelectionText | 3D_control/js/phases/SelectionMenu.js:260-301 | outside phase 0 nothing changes; in phase 0 the previous sprite leaves the scene and a new sprite with the text is the only one in it |
| HandControls.ClosedFistSquared | js/HandControls.js:160-161 | the fist is closed exactly when the squared distance of joints 9 and 12 is below 0.35² |
| HandControls.ClosedFistNear | js/HandControls.js:190-200 | a hand whose joints 9 and 12 lie within 0.05 of each other on every normalised camera axis has a closed fist |
| HandControls.MapLinearEnds | js/HandControls.js:219 | mapLinear maps the ends of the first range to the ends of the second |
| HandControls.DepthZ | js/HandControls.js:218-222 | depthZ always lies in [−2, 4] |
| HandControls.DepthZCases | js/HandControls.js:218-222 | distances up to 125 give −2, distances from 875 give 4, and between is linear |
| HandControls.DepthZMonotone | js/HandControls.js:218-222 | a larger on-screen distance never brings the cursor nearer |
| HandControls.GestureEvents | js/HandControls.js:236-250 | a closed fist dispatches exactly "opened_fist"; an open fist dispatches "closed_fist" first (then "drag_end" with the selected object) |
| HandControls.FirstHit | js/HandControls.js:266-267 | the first intersecting index, if any |
| HandControls.SelectedFirstHit | js/HandControls.js:266-269 | a pass selects only with a closed fist, dragging allowed and nothing selected, and then the first intersecting object |
| HandControls.PassEventsCounts | js/HandControls.js:264-276 | one "collision on" per intersecting object in array order; a "drag start" only for a new selection, and for that object; no "collision off" while something is selected, one per missed object when nothing is selected and no grab is possible |
| HandControls.SelectedKept | js/HandControls.js:266 | a selected object stays selected for the rest of the pass |
| HandControls.Touched | js/HandControls.js:264-273 | an intersecting object gets the collision flag and opacity 0.4; a missed one opacity 1 and its old flag |
| HandControls.Controls.constructor | js/HandControls.js:8-33 | every object's collision flag starts false |
| HandControls.Controls.Update | js/HandControls.js:115-169 | with exactly one hand, the fist, the depth, the cursor and the gesture events are updated; otherwise nothing changes |
| HandControls.Controls.CalculateGestures | js/HandControls.js:176-201 | the four gesture points are joints 0, 10, 9 and 12 mirrored and scaled |
| HandControls.Controls.UpdateTargetPosition | js/HandControls.js:206-231 | depthZ is DepthZ of the distance and the cursor goes to the knuckle's x and y at depth −depthZ |
| HandControls.Controls.HandleGestureEvents | js/HandControls.js:236-250 | the specified events are dispatched and a closed fist clears the selection |
| HandControls.Controls.Animate | js/HandControls.js:255-284 | every object is touched as specified, selection and events follow the pass, and only the selected object moves, by lerp 0.3, when the fist is closed and dragging allowed |
| HandControls.Controls.VisitAll | js/HandControls.js:260-278 | the forEach touches every object and reaches the specified selection and events |
| HandControls.Controls.DragSelected | js/HandControls.js:281-283 | the selected object moves 30% toward the cursor only when selected, closed and draggable |
| HandControls.Controls.Visit | js/HandControls.js:261-277 | the body for object k touches it and extends the events by its own |
| HandControls.Controls.Dispatch | js/HandControls.js:264-276 | one object's selection and events as specified |
| Gesture.LengthXY | js/GestureDetector.js:35-37 | lengths ignore z and are non-negative |
| Gesture.HandMarks | js/GestureDetector.js:40-69 | every hand gets exactly five marks |
| Gesture.HandMarksSquared | js/GestureDetector.js:42-68 | each mark is '^' or '_'; the thumb is '^' exactly when its squared length exceeds threshold² times the squared palm, finger f exactly when its squared length exceeds 1.69 times the squared palm |
| Gesture.ThumbSquared | js/GestureDetector.js:42-48 | the thumb test is decided without roots: squared length over threshold² times the squared palm |
| Gesture.FingerSquared | js/GestureDetector.js:59-68 | a finger test is decided without roots: 1.3² is 1.69 |
| Geometry.Clamp | js/HandControls.js:218-222 | `THREE.MathUtils.clamp` stays in [lo, hi], keeps a value already inside and gives the nearer end otherwise |
| Geometry.Lerp | js/HandControls.js:282 | `lerp` with alpha 0 stays at the start and with alpha 1 reaches the target |
| Gesture.HandMarksIgnoreZ | js/GestureDetector.js:35-37 | the marks depend only on x and y |
| Gesture.FingerMarks | js/GestureDetector.js:40-69 | the loop body pushes the specified marks |
| Gesture.MarksByHand | js/GestureDetector.js:38-70 | every hand index is mapped to its marks and nothing else |
| Gesture.GestureDetector.GetFingerStatus | js/GestureDetector.js:28-109 | both maps are replaced by ones keyed by the current hands, holding the marks and the orientations, and the detector itself is returned |
| TestPhase.FingerString | js/phases/TestPhase.js:116 | '^' maps to 'O' and anything else to '-', keeping length and order |
| TestPhase.FingerStringOfMarks | js/phases/TestPhase.js:29-56 | the display string has five characters, 'O' exactly for the raised thumb (threshold 0.4) and raised fingers |
| TestPhase.TestThumbStricter | js/phases/TestPhase.js:29-43 | a thumb raised at 0.4 is raised at 0.3, and the other fingers agree with the detector |
| TestPhase.Phase.Animate | js/phases/TestPhase.js:19-94 | the finger states are replaced by the marks of the current hands, and each hand's panel shows its string |
| TestPhase.Phase.UpdateFingerStatus | js/phases/TestPhase.js:101-116 | one display string per hand in the map |
| TestPhase.Phase.HandleGesture | js/phases/TestPhase.js:138-140 | nothing changes |
| TestPhase.Phase.HandleCollision | js/phases/TestPhase.js:142-144 | nothing changes |
| HandDetection.WristDistances | MIR/js/handDetection.js:16-27 | four non-negative wrist distances, to joints 5, 9, 3 and 17 in that order |
| HandDetection.MaxOf | MIR/js/handDetection.js:28 | Math.max is one of the values and at least each |
| HandDetection.PalmSizeIsMax | MIR/js/handDetection.js:16-28 | the palm size is the maximum of the four distances, hence non-negative |
| HandDetection.PalmSizeBelow | MIR/js/handDetection.js:16-28 | the palm is smaller than t exactly when every squared wrist distance is below t² |
| HandDetection.HandDetector.constructor | MIR/js/handDetection.js:5-12 | not initialised, no hands, scales 0.8 and 3 and offset 0 |
| HandDetection.HandDetector.CalculateHandDepth | MIR/js/handDetection.js:14-33 | depth is ten times the palm size, the second value adds the z offset, and the third is the wrist |
| HandDetection.HandDetector.Initialize | MIR/js/handDetection.js:35-60 | the detector becomes initialised |
| HandDetection.HandDetector.OnResults | MIR/js/handDetection.js:52-57 | the stored hands become the reported ones, or [] when there are none |
| HandDetection.HandDetector.HandRecords | MIR/js/handDetection.js:78-90 | one record per stored hand, with its landmarks, depths, wrist, confidence 1 and its position as index |
| HandDetection.HandDetector.DetectHands | MIR/js/handDetection.js:68-96 | fails uninitialised; a failed send gives []; otherwise the stored hands are updated and their records returned |
| HandDetection.DefaultOffsetDepths | MIR/js/handDetection.js:11-32 | with the default offset the two depths coincide and equal ten times the palm |
| Songs.InCategory | 3D_control/js/DataFetcher.js:19 | the filter keeps only songs of the category, no more than there are |
| Songs.InCategoryMembers | 3D_control/js/DataFetcher.js:19 | a song is kept exactly when it is in the list with that category |
| Songs.InCategoryAppend | MIR/js/dataFetch.js:52 | the filter distributes over concatenation, so it keeps order |
| Songs.InCategoryAll | MIR/js/dataFetch.js:52 | a list of one category passes unchanged |
| Songs.InCategoryNone | MIR/js/dataFetch.js:52 | with no song of the category the filter is empty |
| Songs.FindById | MIR/js/dataFetch.js:42 | `find` gives the first song with the id, or none exactly when no song has it |
| Songs.FindInCategory | 3D_control/js/DataFetcher.js:19-24 | the song find returns for an id is among the filtered songs of its category |
| SongData.ProcessBeatMap | MIR/js/dataFetch.js:26-36 | same length and order; each beat keeps its time and points and gathers x, y, z into a position |
| SongData.Unprocess | MIR/js/dataFetch.js:26-36 | spreading positions back keeps the number of beats |
| SongData.ProcessBeatMapRoundTrip | MIR/js/dataFetch.js:26-36 | spreading the converted beats gives the stored beat map back |
| SongData.ProcessBeatMapAppend | MIR/js/dataFetch.js:27 | the conversion commutes with concatenation |
| SongData.SongsOf | MIR/js/dataFetch.js:49-52 | 'all' gives every song; another category gives exactly its songs, in order |
| SongData.DataFetcher.FetchSongList | MIR/js/dataFetch.js:7-24 | a parsed document's songs are cached and returned; a failed response is an error and the cache is kept |
| SongData.DataFetcher.Loaded | MIR/js/dataFetch.js:39-41 | with nothing cached the list is loaded first; a cached list is used unchanged |
| SongData.DataFetcher.GetSongById | MIR/js/dataFetch.js:38-43 | the first cached song with the id, loading first if needed |
| SongData.DataFetcher.GetSongsByCategory | MIR/js/dataFetch.js:45-53 | every cached song for 'all', otherwise the songs of the category in order, loading first if needed |
| SongCatalog.DataFetcher.FetchSongList | 3D_control/js/DataFetcher.js:6-15 | the parsed document is stored whole and returned; an error leaves the cache |
| SongCatalog.DataFetcher.GetSongsByCategory | 3D_control/js/DataFetcher.js:17-20 | nothing with no list loaded, otherwise exactly the songs of the category in order |
| SongCatalog.DataFetcher.GetSongById | 3D_control/js/DataFetcher.js:22-25 | null with no list loaded, otherwise the first match or undefined |
| SongCatalog.AllIsOrdinary | 3D_control/js/DataFetcher.js:19 | 'all' is an ordinary category: without a song of that category the result is empty |
| SceneBoxes.SpawnPosition | js/phases/Phase1.js:33-35 | a spawned box lies at z = −10 with x in [−1, 1) and y in [−0.25, 0.25) |
| SceneBoxes.AdvancedProperties | js/GameController.js:199-210 | after a frame no box is past 2.5; a recycled box is at z = −10 in the spawn ranges with opacity 1; any other box only moved 0.05 nearer |
| SceneBoxes.FramesBeforeRecycle | js/phases/Phase1.js:54-65 | a box spawned at −10 is at −10 + 0.05·n after n ≤ 250 frames, so it is not recycled before then |
| SceneBoxes.AdvanceAll | js/GameController.js:199-210 | every box advances one frame; the count is unchanged |
| SceneBoxes.AdvanceBox | js/GameController.js:200-209 | one box advances one frame as specified |
| SceneBoxes.SpawnBoxes | js/GameController.js:74-96 | five fresh distinct boxes, each at the spawn position of its draws and without collision |
| SceneBoxes.GameController.constructor | js/GameController.js:10-15 | the game is not started and the phase is 0 |
| SceneBoxes.GameController.BuildEnvironment | js/GameController.js:74-96 | five fresh boxes become the objects |
| SceneBoxes.GameController.SetGameStart | js/GameController.js:147-149 | the toggle's value becomes game_start |
| SceneBoxes.GameController.OnCollision | js/GameController.js:163-165 | cursor opacity 0.4 for "on" and 1 otherwise |
| SceneBoxes.GameController.Animate | js/GameController.js:181-195 | the boxes advance only when the game is started and in phase 0 |
| SceneBoxes.GameController.GamePhase0 | js/GameController.js:197-211 | every box advances one frame |
| SceneBoxes.Phase1.constructor | js/phases/Phase1.js:6-9 | construction runs initialize |
| SceneBoxes.Phase1.Initialize | js/phases/Phase1.js:11-50 | exactly five fresh boxes at the spawn positions are appended to the controller's objects, which otherwise keep their contents and order |
| SceneBoxes.Phase1.Animate | js/phases/Phase1.js:52-66 | every box of the controller advances one frame; the count is unchanged |
| XlsxServer.Answer | streetIndexConvertor/server.py:31-45 | an answer is four calls: the status line first and the body last |
| XlsxServer.XlsxOutputs | streetIndexConvertor/server.py:25-45 | status, content type and end of headers come first; the status is 200 exactly for an allowed existing file, 404 exactly for an allowed missing one, and 403 exactly for a name outside the allow-list |
| XlsxServer.GetRouting | streetIndexConvertor/server.py:17-23 | only paths starting with /api/xlsx/ reach serve_xlsx; all others are served statically |
| XlsxServer.AllowListDecides | streetIndexConvertor/server.py:28-45 | a name outside the allow-list gets the same answer whatever files exist, and file bytes are only ever written for an allowed name at its joined path |
| XlsxServer.NoTraversal | streetIndexConvertor/server.py:6-28 | no allowed name is empty, contains '/' or starts with '.', so no climbing name reaches os.path.join |
| XlsxServer.SlashesIgnored | streetIndexConvertor/server.py:27 | slashes before and after an allowed name are ignored |
| XlsxServer.APIHandler.DoHead | streetIndexConvertor/server.py:12-15 | HEAD always answers 200 text/html |
| XlsxServer.APIHandler.DoGet | streetIndexConvertor/server.py:17-23 | the handler's output is GetOutputs of its path |
| XlsxServer.APIHandler.ServeXlsx | streetIndexConvertor/server.py:25-45 | the handler's output is XlsxOutputs of the filename derived from its path |

## Left out

- Page rendering is not modelled. This covers tables, suggestion pop-ups, modals, Leaflet
  maps, Tweakpane bindings, canvas and sprite drawing, and the score display. A page
  function is modelled only by what it assigns to the model's fields. `displayResults` is
  modelled as storing the rows it shows.
- `fetch`, `response.json`, `XLSX.read` and `sheet_to_json` are foreign I/O. Their results
  are parameters: a parsed document, a failed response or the spreadsheet rows.
- `loadData` is modelled only for the coordinate parsing.
- MediaPipe, Three.js rendering, `Box3` intersection and `to2D` are outside the model:
  - intersection results are given as one boolean per object;
  - the on-screen depth distance is a parameter.
- The mean/variance landmark placement of `HandControls.update` (js/HandControls.js:119-153)
  divides by a variance in floating point. It does not influence the fist test or the
  cursor, so it is left out.
- Hand orientation (`angleTo`/`cross`) is a function parameter.
- `SelectionMenu._orbit` is trigonometric layout, left out.
- The `drag_end` callback is carried in the event, but no listener calls it in the code
  modelled here.
- `updateGamePhase` lives in a `GameController` file that is not part of this model. It is
  taken to assign the phase.
- SceneBoxes.Phase1.Initialize: `clearScreen`, `reset_cursor_feedbacks` and
  `setup_collision_detection`, called at js/phases/Phase1.js:14 and 48-49, are not
  defined in the modelled files, and js/GameController.js has none of them. They are taken
  to leave the controller's `objects` unchanged, so the old objects are kept as a prefix.
- The static-file branch of `do_GET` is taken to be an opaque "static" answer, because it
  is the standard library's handler.
- File existence and contents are parameters.
- Disk and network errors are not modelled.
- librosa/numpy feature extraction (backend/_archive/music.py:41-68) is left out.
  - The onsets, their times, energies and bins, and the two thresholds are inputs.
  - Whether `low ≤ high` holds is left to the caller.
- numpy's `mean` of an empty slice is modelled as no value.
- Music.MinMaxNormalize: the y values are taken to be the NumPy integers the beat map
  stores, so its callers pass only numeric y. A zero y range gives NaN, because y lies in
  its own range and so the numerator is 0 as well. An infinite quotient cannot arise and is
  not modelled.
- Music.NormalizeIdempotent: covers only a y range that is not zero. On a constant y the
  first pass writes NaN, and a second pass would take Python's `min` and `max` over NaN,
  whose result depends on the order of the values; the model does not define that.
- Default arguments are constants or explicit parameters:
  - `moving_average_energy`'s `window_size=4` is `Music.DefaultWindowSize`;
  - `updateBoxes`'s `speed = 0.1` is `GameAnimation.DefaultSpeed`;
  - the `isDraggable = false` of the `HandControls` constructor is
    `HandControls.DefaultDraggable`;
  - the model's operations take these values as ordinary parameters, so a call that leaves
    one out is modelled by passing the constant.
- `extract_music_features` sets `window_size = 2` but does not use it: the call to
  `moving_average_energy` is commented out, and the onset strength is used instead.
- `timeString` depends on JavaScript number formatting, so it is left out.
- Threads (backend streamer, progress thread) and `async` ordering are not modelled. Each
  awaited call is one step.
- `Math.random` draws, `Math.sqrt`, `measureText` and `localeCompare` are parameters:
  - a draw is a value in [0, 1);
  - a square root is any function satisfying the square-root predicate;
  - the canvas measure is any function;
  - the collation is a comparator.
- StreetSearch.NormalizeInput: the regular expression `/\b[a-z]+\.\d+/` only matches texts
  that already contain '.', so the index guess is modelled by the '.' test alone.
- JavaScript numbers are reals. NaN is modelled only where the code can produce it:
  - `parseFloat`;
  - `0 / 0` in `calculateAccuracy`;
  - `Infinity`/`NaN` ratios in the finger tests, which are compared as products.
  Floating-point rounding is otherwise not modelled.
- `Math.round` and Python's `round` are modelled on exact reals. Binary floating-point ties
  are out of scope.
- Strings are sequences of Unicode scalars, and lower-casing is ASCII only. The hash works
  on UTF-16 code units given as integers.
