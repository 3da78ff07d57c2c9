# Emotion radar chart: score model

A Dafny model of the data behind `EmotionRadarWidget`, a Qt widget that draws one score per
category label (eight emotions by default) as a radar ("spider") chart. The widget is a single-owner
mutable object. It holds an ordered list of category labels, a parallel list of
scores, a positive display bound `maxValue`, the ring count `gridLines`, the inset
`margin`, six colours, the `showPoints` flag and a title. Its public slots change
these fields in place.

- `score_model.dfy` (module `ScoreModel`) holds value-level definitions:
  - the repair pass that `normalizeValues` performs. It rebuilds the list to the label count, keeping the prefix and zero-filling the rest, then clamps every score into `[0, maxValue]`.
  - `QStringList::indexOf`.
  - what one named write (`setEmotionValue`) does to the list.
  - the fold that a batch of named writes (`setEmotionScores`) performs.
  - `qFuzzyCompare`.
  - the lemmas about these: the pass is idempotent, it keeps a valid list unchanged, a named write changes only the first matching position, and unknown names in a batch have no effect.
- `radar_widget.dfy` (module `EmotionRadar`) defines the class `EmotionRadarWidget`:
  - its fields, the class invariant `Valid()`, the constructor, the getters and every setter.
  - the setters are imperative methods. `NormalizeValues` keeps the source's copy loop and clamp loop.
  - each setter is framed to the fields it may touch (`modifies this`title, this`log`, …), so "changes only its own field" is part of its contract.
  - `update()` followed by `emit xChanged()` is recorded by appending `[Update, XChanged]` to a ghost event log. This lets "notifies only on an actual change" be stated precisely.

The class invariant is:
- labels are non-empty
- `|values| == |labels|`
- `maxValue > 0`
- `gridLines >= 1`
- `margin >= 0`
- every score lies in `[0, maxValue]`

The constructor establishes it and every setter keeps it for finite inputs.

The contracts make these behaviours of the code explicit:
- `setValues` and `setEmotionValue` raise `valuesChanged` even when no score changes.
- `setLabels` resets every score but raises only `labelsChanged`.
- `setMaxValue` may lower scores but raises only `maxValueChanged`.
- `setMaxValue` ignores a bound fuzzily equal to the current one (`qFuzzyCompare`, src/EmotionRadarWidget.cpp:126).
- `setEmotionScores` applies the entries in `QMap`'s ascending key order (src/EmotionRadarWidget.cpp:230-234).
- The widget has six colours: fill, stroke, point, grid, label and background (src/EmotionRadarWidget.h:100-105).

Two further definitions:
- `ScoreModel.DEFAULT_EMOTIONS` is the list that `defaultEmotions()` returns (src/EmotionRadarWidget.cpp:8-13).
- `ScoreModel.ScoreMap` is `QMap<QString, double>` in its iteration order: keys strictly ascending under `StrLess` (src/EmotionRadarWidget.h:68).

## Model

| member | source | states |
|---|---|---|
| `ScoreModel.Zeros` | src/EmotionRadarWidget.cpp:110 | `QVariantList(n, 0.0)` has exactly `n` entries, all zero |
| `ScoreModel.Resized` | src/EmotionRadarWidget.cpp:317-323 | rebuilding to `n` entries gives length `n`; positions below the old length keep their value; later positions are 0 |
| `ScoreModel.Clamp` | src/EmotionRadarWidget.cpp:326-331 | for a non-negative bound the result lies in `[0, hi]`; it is the value itself when in range; a negative value becomes 0; one above the bound becomes the bound |
| `ScoreModel.ClampAll` | src/EmotionRadarWidget.cpp:325-332 | the clamping loop keeps the length, clamps each position independently and yields a list within range |
| `ScoreModel.Normalized` | src/EmotionRadarWidget.cpp:311-333 | with no labels the list is untouched; otherwise the result has the label count and lies in `[0, hi]` |
| `ScoreModel.NormalizedAt` | src/EmotionRadarWidget.cpp:316-332 | after the repair pass, position `i` holds the clamped old score, or clamped 0 past the old end |
| `ScoreModel.NormalizedKeepsValid` | src/EmotionRadarWidget.cpp:316-332 | a list of the right length whose scores are already in range comes out of the repair pass unchanged |
| `ScoreModel.NormalizedIdempotent` | src/EmotionRadarWidget.cpp:311-333 | a second repair pass changes nothing, for any label count, list and bound |
| `ScoreModel.IndexOf` | src/EmotionRadarWidget.cpp:217-219 | the label lookup returns -1 exactly when the name is absent; otherwise it returns a position holding the name with no earlier such position |
| `ScoreModel.SetValueAt` | src/EmotionRadarWidget.cpp:215-228 | what `setEmotionValue` does to the score list; it has no contract of its own and is specified by `SetValueAtShape` (any state) and `SetValueAtValid` (a valid list) |
| `ScoreModel.SetValueAtShape` | src/EmotionRadarWidget.cpp:215-228 | in any state: an unknown name leaves the list as it was; otherwise the list has the label count, the first matching position holds the clamped new value, and every other position holds its clamped old score (0 past the old end) |
| `ScoreModel.SetValueAtValid` | src/EmotionRadarWidget.cpp:215-228 | on a valid list only the first matching position changes, to `clamp(v, 0, maxValue)`; all other entries keep their values and the list stays in range |
| `ScoreModel.LastValue` | src/EmotionRadarWidget.cpp:230-234 | the lookup in a batch is empty exactly when no entry has the name; otherwise it is the value of an entry with that name |
| `ScoreModel.ScoreMapLookup` | src/EmotionRadarWidget.h:68 | in a `QMap` (keys strictly ascending) a name's lookup gives `v` exactly when `(name, v)` is an entry, so a batch's outcome depends only on the map's contents |
| `ScoreModel.ApplyScores` | src/EmotionRadarWidget.cpp:230-234 | the `setEmotionScores` loop as a fold of `SetValueAt` over the entries in order; it is specified by `ApplyScoresAt` (every position of the outcome) and `ApplyScoresIgnoresUnknown` (names that are not labels have no effect) |
| `ScoreModel.ApplyScoresIgnoresUnknown` | src/EmotionRadarWidget.cpp:230-234 | a batch gives the same list as the same batch with the entries naming no label removed |
| `ScoreModel.ApplyScoresAt` | src/EmotionRadarWidget.cpp:230-234 | a batch on a valid list keeps length and range; position `i` holds the clamped batch value when `i` is the first occurrence of a named label; otherwise it keeps its old score |
| `ScoreModel.FuzzyEqual` | src/EmotionRadarWidget.cpp:126 | Qt's `qFuzzyCompare(p1, p2)`: `|p1 - p2| * 10^12 <= min(|p1|, |p2|)`; `FuzzyEqualFacts` states its consequences for the guard |
| `ScoreModel.StrLess` | src/EmotionRadarWidget.h:68 | the strict key order of `QMap<QString, double>`, character codes compared lexicographically; `StrLessIrreflexive` shows that no key precedes itself |
| `ScoreModel.FuzzyEqualFacts` | src/EmotionRadarWidget.cpp:126 | fuzzy comparison holds of equal bounds; it never holds between a positive bound and a non-positive one |
| `EmotionRadar.ScoreEventsCount` | src/EmotionRadarWidget.cpp:226-234 | a batch raises one repair-and-signal pair (`Update`, `ValuesChanged`) per entry naming a label and no other event |
| `EmotionRadar.EmotionRadarWidget.Valid` | src/EmotionRadarWidget.h:93-107 | the class invariant over the fields: labels non-empty, one score per label, a positive bound, at least one ring, a non-negative margin, every score in `[0, maxValue]` |
| `EmotionRadar.EmotionRadarWidget.constructor` | src/EmotionRadarWidget.cpp:8-23 | a new widget has the 8 default emotions in order and 8 zero scores; the title is "Emotion Radar"; the log is empty and the invariant holds |
| `EmotionRadar.EmotionRadarWidget.Title` | src/EmotionRadarWidget.cpp:25-28 | the getter returns the stored title and changes nothing |
| `EmotionRadar.EmotionRadarWidget.Labels` | src/EmotionRadarWidget.cpp:30-33 | the getter returns the stored labels and changes nothing |
| `EmotionRadar.EmotionRadarWidget.Values` | src/EmotionRadarWidget.cpp:35-38 | the getter returns the stored scores and changes nothing |
| `EmotionRadar.EmotionRadarWidget.MaxValue` | src/EmotionRadarWidget.cpp:40-43 | the getter returns the stored bound and changes nothing |
| `EmotionRadar.EmotionRadarWidget.GridLines` | src/EmotionRadarWidget.cpp:45-48 | the getter returns the stored ring count and changes nothing |
| `EmotionRadar.EmotionRadarWidget.Margin` | src/EmotionRadarWidget.cpp:50-53 | the getter returns the stored margin and changes nothing |
| `EmotionRadar.EmotionRadarWidget.FillColor` | src/EmotionRadarWidget.cpp:55-58 | the getter returns the stored fill colour and changes nothing |
| `EmotionRadar.EmotionRadarWidget.StrokeColor` | src/EmotionRadarWidget.cpp:60-63 | the getter returns the stored stroke colour and changes nothing |
| `EmotionRadar.EmotionRadarWidget.PointColor` | src/EmotionRadarWidget.cpp:65-68 | the getter returns the stored point colour and changes nothing |
| `EmotionRadar.EmotionRadarWidget.GridColor` | src/EmotionRadarWidget.cpp:70-73 | the getter returns the stored grid colour and changes nothing |
| `EmotionRadar.EmotionRadarWidget.LabelColor` | src/EmotionRadarWidget.cpp:75-78 | the getter returns the stored label colour and changes nothing |
| `EmotionRadar.EmotionRadarWidget.BackgroundColor` | src/EmotionRadarWidget.cpp:80-83 | the getter returns the stored background colour and changes nothing |
| `EmotionRadar.EmotionRadarWidget.ShowPoints` | src/EmotionRadarWidget.cpp:85-88 | the getter returns the stored point-visibility flag and changes nothing |
| `EmotionRadar.EmotionRadarWidget.NormalizeValues` | src/EmotionRadarWidget.cpp:311-333 | the copy loop and the in-place clamp loop leave exactly `Normalized(labels count, old values, maxValue)`; only `values` may change, so labels and bound are kept |
| `EmotionRadar.EmotionRadarWidget.SetTitle` | src/EmotionRadarWidget.cpp:95-102 | afterwards the title is the argument; `titleChanged` is raised exactly when it differed; only the title and the log may change |
| `EmotionRadar.EmotionRadarWidget.SetLabels` | src/EmotionRadarWidget.cpp:104-114 | an empty or identical list changes nothing and raises nothing; otherwise the labels become the list, the scores become that many zeros and `labelsChanged` is raised; the invariant is kept |
| `EmotionRadar.EmotionRadarWidget.SetValues` | src/EmotionRadarWidget.cpp:116-122 | the raw list of any length is stored repaired to the label count and range; `valuesChanged` is raised unconditionally; the invariant is kept |
| `EmotionRadar.EmotionRadarWidget.SetMaxValue` | src/EmotionRadarWidget.cpp:124-132 | a non-positive or fuzzily equal bound changes nothing; otherwise the bound is replaced and each score becomes `min(v, m)`; then `maxValueChanged` is raised; labels are untouched and the invariant is kept |
| `EmotionRadar.EmotionRadarWidget.SetGridLines` | src/EmotionRadarWidget.cpp:134-141 | a count below 1 or equal to the current one changes nothing and raises nothing; otherwise it is stored and `gridLinesChanged` is raised; only this field and the log may change |
| `EmotionRadar.EmotionRadarWidget.SetMargin` | src/EmotionRadarWidget.cpp:143-150 | a negative or equal margin changes nothing and raises nothing; otherwise it is stored and `marginChanged` is raised; only this field and the log may change |
| `EmotionRadar.EmotionRadarWidget.SetFillColor` | src/EmotionRadarWidget.cpp:152-159 | the fill colour becomes the argument; `fillColorChanged` is raised exactly when it differed; nothing else changes |
| `EmotionRadar.EmotionRadarWidget.SetStrokeColor` | src/EmotionRadarWidget.cpp:161-168 | the stroke colour becomes the argument; `strokeColorChanged` is raised exactly when it differed; nothing else changes |
| `EmotionRadar.EmotionRadarWidget.SetPointColor` | src/EmotionRadarWidget.cpp:170-177 | the point colour becomes the argument; `pointColorChanged` is raised exactly when it differed; nothing else changes |
| `EmotionRadar.EmotionRadarWidget.SetGridColor` | src/EmotionRadarWidget.cpp:179-186 | the grid colour becomes the argument; `gridColorChanged` is raised exactly when it differed; nothing else changes |
| `EmotionRadar.EmotionRadarWidget.SetLabelColor` | src/EmotionRadarWidget.cpp:188-195 | the label colour becomes the argument; `labelColorChanged` is raised exactly when it differed; nothing else changes |
| `EmotionRadar.EmotionRadarWidget.SetBackgroundColor` | src/EmotionRadarWidget.cpp:197-204 | the background colour becomes the argument; `backgroundColorChanged` is raised exactly when it differed; nothing else changes |
| `EmotionRadar.EmotionRadarWidget.SetShowPoints` | src/EmotionRadarWidget.cpp:206-213 | the flag becomes the argument; `showPointsChanged` is raised exactly when it differed; nothing else changes |
| `EmotionRadar.EmotionRadarWidget.SetEmotionValue` | src/EmotionRadarWidget.cpp:215-228 | in any state the lookup, the defensive resize, the write and the repair pass leave the scores at `SetValueAt(labels, old scores, maxValue, name, v)`; `valuesChanged` is raised exactly when the name is a label; from a valid state the invariant is kept, so with `SetValueAtValid` only the first matching position changes, to the clamped value |
| `EmotionRadar.EmotionRadarWidget.StoreScore` | src/EmotionRadarWidget.cpp:221-224 | the write before the repair pass: a list too short for the index is first resized to the label count, prefix kept and tail zero; then the index takes the raw value |
| `EmotionRadar.EmotionRadarWidget.SetEmotionScores` | src/EmotionRadarWidget.cpp:230-234 | the scores become `setEmotionValue` applied to each map entry in ascending key order; the log grows by exactly those calls' events; the invariant is kept |
| `EmotionRadar.EmotionRadarWidget.ValueToPoint` | src/EmotionRadarWidget.cpp:335-344 | with no labels the point is the centre; otherwise it lies on spoke `index` of `|labels|`; for `0 <= value <= maxValue` its distance lies in `[0, radius]`; `maxValue` lands exactly on the outer radius and 0 on the centre |

## Left out

- `paintEvent` (src/EmotionRadarWidget.cpp:236-309) is QPainter rendering of rings, spokes, label text, the data polygon and the title. It is not modelled, because it draws through the toolkit. One exact fact about it is recorded here:
  - It passes pixel distances as the `value` argument of `valueToPoint`: the ring radius `r` at cpp:257, `radius` at cpp:262 and `radius + 16` at cpp:275.
  - `valueToPoint` scales its `value` to `radius * value / maxValue`, so rings, spokes and labels land at `radius * r / maxValue` pixels rather than at `r`.
  - With the default bound 1.0 this places them far outside the widget. Only the data polygon (cpp:285) passes a score.
- EmotionRadar.EmotionRadarWidget.ValueToPoint: returns the point in polar form (spoke index, spoke count, distance). The conversion to Cartesian coordinates with `qCos`/`qSin` of `-pi/2 + index * 2pi/count` is floating-point trigonometry and is not modelled.
- `sizeHint` and `setMinimumSize` are fixed layout sizes for the toolkit.
- `tr("Emotion Radar")` is modelled as the untranslated text. Looking up a translation is I/O.
- Scores are modelled as `real`. The model does not capture `double` rounding or the `QVariant::toDouble` conversion of non-numeric entries, so a raw list is already a list of numbers.
- EmotionRadar.EmotionRadarWidget.SetMaxValue, together with SetValues and SetEmotionValue: NaN and the infinities are outside the model, which has only finite reals. On them the code breaks the invariant. `setMaxValue(NaN)` passes both guards at src/EmotionRadarWidget.cpp:126 and stores NaN as the bound, after which no score is clamped from above. `setMaxValue(inf)` stores an infinite bound. A NaN score given to `setValues` or `setEmotionValue` survives the clamp at src/EmotionRadarWidget.cpp:327-330, because both comparisons are false.
- Colours are modelled as 8-bit RGBA records compared field by field. `QColor` stores 16-bit channels and its `operator==` also compares the colour spec (RGB, HSV, …). No contract depends on this representation beyond equality of the stored values.
- ScoreModel.FuzzyEqual reads Qt's `qFuzzyCompare` inequality, `|p1 - p2| * 10^12 <= min(|p1|, |p2|)`, exactly over the reals. It ignores the rounding of the `double` product.
- `gridLines` and `margin` are unbounded integers. A C++ `int` argument is 32 bits, but the setters only compare these values, so the width never matters.
- ScoreModel.StrLess orders strings by character code. QString compares UTF-16 code units, which differs from this only for characters outside the Basic Multilingual Plane. The ordering affects only which `QMap` inputs are admissible, not any outcome, because keys are distinct.
- Qt's signal-slot machinery and the repaint that `update()` schedules are recorded only as ghost log events. Connected slots and their reentrancy are not modelled.
- src/EmotionRadarPlugin.cpp and src/EmotionRadarPlugin.h are the Qt Designer plugin: static metadata strings, widget construction and a one-shot initialisation flag. They are host-integration glue and are not part of this model.
- src/EmotionRadarDemo.cpp is the demo program: an event loop, a timer and random scores. It is I/O and randomness with no logic of its own. Its use of `setEmotionScores` with the eight default names is covered by `SetEmotionScores`.
