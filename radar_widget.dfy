/**
 * The state of EmotionRadarWidget that its radar chart is drawn from, and the
 * public slots that change it in place. Each accepted change requests a repaint
 * (QWidget::update) and raises the property's change signal; both are recorded,
 * in order, in the ghost event log.
 */
module EmotionRadar {
  import opened ScoreModel

  /** One 8-bit colour channel. */
  type Channel = x: int | 0 <= x <= 255

  /** A QColor, compared by value. */
  datatype Color = Rgba(red: Channel, green: Channel, blue: Channel, alpha: Channel)

  /** A repaint request, or one of the widget's thirteen change signals. */
  datatype Event =
    | Update
    | TitleChanged | LabelsChanged | ValuesChanged | MaxValueChanged | GridLinesChanged | MarginChanged
    | FillColorChanged | StrokeColorChanged | PointColorChanged | GridColorChanged | LabelColorChanged
    | BackgroundColorChanged | ShowPointsChanged

  /** What an accepted change announces: `update(); emit signal();`. */
  function Notify(signal: Event): seq<Event> {
    [Update, signal]
  }

  /** What one named write raises: a repaint and valuesChanged when the name is a label, nothing otherwise. */
  function WriteEvents(labels: seq<string>, name: string): seq<Event> {
    if IndexOf(labels, name) >= 0 then Notify(ValuesChanged) else []
  }

  /** The announcements of a batch of named writes: one per entry naming a label. */
  function ScoreEvents(labels: seq<string>, e: seq<(string, real)>): seq<Event> {
    if e == [] then []
    else ScoreEvents(labels, e[..|e| - 1]) + WriteEvents(labels, e[|e| - 1].0)
  }

  /** A batch raises exactly one repaint and one valuesChanged per entry that names a label. */
  lemma {:induction false} ScoreEventsCount(labels: seq<string>, e: seq<(string, real)>)
    ensures |ScoreEvents(labels, e)| == 2 * |KnownOnly(labels, e)|
    ensures forall k :: 0 <= k < |ScoreEvents(labels, e)| ==>
      ScoreEvents(labels, e)[k] == if k % 2 == 0 then Update else ValuesChanged
  {
    if e != [] {
      ScoreEventsCount(labels, e[..|e| - 1]);
    }
  }

  const DEFAULT_TITLE: string := "Emotion Radar"
  const DEFAULT_MAX_VALUE: real := 1.0
  const DEFAULT_GRID_LINES: int := 5
  const DEFAULT_MARGIN: int := 24
  const DEFAULT_FILL_COLOR: Color := Rgba(0, 122, 204, 120)
  const DEFAULT_STROKE_COLOR: Color := Rgba(0, 122, 204, 255)
  const DEFAULT_POINT_COLOR: Color := Rgba(255, 255, 255, 255)
  const DEFAULT_GRID_COLOR: Color := Rgba(160, 160, 160, 255)
  const DEFAULT_LABEL_COLOR: Color := Rgba(60, 60, 60, 255)
  const DEFAULT_BACKGROUND_COLOR: Color := Rgba(250, 250, 250, 255)

  /** A point of the chart relative to its centre, in polar form. */
  datatype PolarPoint =
    | Origin
      /** On spoke `index` of `count`, at angle -pi/2 + index * 2pi/count, `distance` from the centre. */
    | OnSpoke(index: int, count: nat, distance: real)

  class EmotionRadarWidget {
    var title: string
    var labels: seq<string>
    var values: seq<real>
    var maxValue: real
    var gridLines: int
    var margin: int

    var fillColor: Color
    var strokeColor: Color
    var pointColor: Color
    var gridColor: Color
    var labelColor: Color
    var backgroundColor: Color

    var showPoints: bool

    /** Every repaint request and change signal raised so far, oldest first. */
    ghost var log: seq<Event>

    /** The class invariant the setters keep. */
    ghost predicate Valid()
      reads this`labels, this`values, this`maxValue, this`gridLines, this`margin
    {
      |labels| > 0 && |values| == |labels| && maxValue > 0.0 &&
      gridLines >= 1 && margin >= 0 && InRange(values, maxValue)
    }

    /** A new widget: eight default emotions scored 0, range [0, 1], the default style. */
    constructor ()
      ensures Valid()
      ensures title == DEFAULT_TITLE
      ensures labels == DEFAULT_EMOTIONS && |values| == 8
      ensures forall i :: 0 <= i < |values| ==> values[i] == 0.0
      ensures maxValue == 1.0 && gridLines == 5 && margin == 24
      ensures fillColor == DEFAULT_FILL_COLOR && strokeColor == DEFAULT_STROKE_COLOR
      ensures pointColor == DEFAULT_POINT_COLOR && gridColor == DEFAULT_GRID_COLOR
      ensures labelColor == DEFAULT_LABEL_COLOR && backgroundColor == DEFAULT_BACKGROUND_COLOR
      ensures showPoints
      ensures log == []
    {
      title := DEFAULT_TITLE;
      labels := DEFAULT_EMOTIONS;
      values := Zeros(|DEFAULT_EMOTIONS|);
      maxValue := DEFAULT_MAX_VALUE;
      gridLines := DEFAULT_GRID_LINES;
      margin := DEFAULT_MARGIN;
      fillColor := DEFAULT_FILL_COLOR;
      strokeColor := DEFAULT_STROKE_COLOR;
      pointColor := DEFAULT_POINT_COLOR;
      gridColor := DEFAULT_GRID_COLOR;
      labelColor := DEFAULT_LABEL_COLOR;
      backgroundColor := DEFAULT_BACKGROUND_COLOR;
      showPoints := true;
      log := [];
    }

    // Getters: each returns its field and changes nothing.

    method Title() returns (t: string)
      ensures t == title
    {
      t := title;
    }

    method Labels() returns (ls: seq<string>)
      ensures ls == labels
    {
      ls := labels;
    }

    method Values() returns (vs: seq<real>)
      ensures vs == values
    {
      vs := values;
    }

    method MaxValue() returns (m: real)
      ensures m == maxValue
    {
      m := maxValue;
    }

    method GridLines() returns (c: int)
      ensures c == gridLines
    {
      c := gridLines;
    }

    method Margin() returns (m: int)
      ensures m == margin
    {
      m := margin;
    }

    method FillColor() returns (c: Color)
      ensures c == fillColor
    {
      c := fillColor;
    }

    method StrokeColor() returns (c: Color)
      ensures c == strokeColor
    {
      c := strokeColor;
    }

    method PointColor() returns (c: Color)
      ensures c == pointColor
    {
      c := pointColor;
    }

    method GridColor() returns (c: Color)
      ensures c == gridColor
    {
      c := gridColor;
    }

    method LabelColor() returns (c: Color)
      ensures c == labelColor
    {
      c := labelColor;
    }

    method BackgroundColor() returns (c: Color)
      ensures c == backgroundColor
    {
      c := backgroundColor;
    }

    method ShowPoints() returns (b: bool)
      ensures b == showPoints
    {
      b := showPoints;
    }

    /**
     * The repair pass: with labels present, a value list of the wrong length is
     * rebuilt to the label count (prefix copied, rest zero), then every entry is
     * clamped into [0, maxValue] in place.
     */
    method NormalizeValues()
      modifies this`values
      ensures labels == old(labels) && maxValue == old(maxValue)
      ensures values == Normalized(|labels|, old(values), maxValue)
    {
      if |labels| == 0 {
        return;
      }
      var count := |labels|;
      if |values| != count {
        var adjusted := Zeros(count);
        var copyCount := if count < |values| then count else |values|;
        for i := 0 to copyCount
          invariant |adjusted| == count
          invariant forall k :: 0 <= k < count ==> adjusted[k] == if k < i then values[k] else 0.0
        {
          adjusted := adjusted[i := values[i]];
        }
        values := adjusted;
      }
      ghost var resized := values;
      assert forall k :: 0 <= k < count ==> resized[k] == if k < |old(values)| then old(values)[k] else 0.0;
      NormalizedAt(count, old(values), maxValue);
      for i := 0 to count
        invariant |values| == count
        invariant forall k :: 0 <= k < count ==> values[k] == if k < i then Clamp(resized[k], maxValue) else resized[k]
      {
        var v := values[i];
        if v < 0.0 {
          v := 0.0;
        }
        if v > maxValue {
          v := maxValue;
        }
        values := values[i := v];
      }
    }

    method SetTitle(t: string)
      requires Valid()
      modifies this`title, this`log
      ensures Valid()
      ensures title == t
      ensures log == old(log) + if t == old(title) then [] else Notify(TitleChanged)
    {
      if t == title {
        return;
      }
      title := t;
      log := log + Notify(TitleChanged);
    }

    /**
     * An empty list, or the current one, is ignored; any other list replaces the
     * labels and resets every score to 0.
     */
    method SetLabels(newLabels: seq<string>)
      requires Valid()
      modifies this`labels, this`values, this`log
      ensures Valid()
      ensures newLabels == old(labels) || newLabels == [] ==>
        labels == old(labels) && values == old(values) && log == old(log)
      ensures newLabels != old(labels) && newLabels != [] ==>
        labels == newLabels && values == Zeros(|newLabels|) && log == old(log) + Notify(LabelsChanged)
    {
      if newLabels == labels || newLabels == [] {
        return;
      }
      labels := newLabels;
      values := Zeros(|labels|);
      NormalizedKeepsValid(|labels|, values, maxValue);
      NormalizeValues();
      log := log + Notify(LabelsChanged);
    }

    /** A raw list of any length is stored and then repaired; valuesChanged is raised every time. */
    method SetValues(vs: seq<real>)
      requires Valid()
      modifies this`values, this`log
      ensures Valid()
      ensures values == Normalized(|labels|, vs, maxValue)
      ensures log == old(log) + Notify(ValuesChanged)
    {
      values := vs;
      NormalizeValues();
      log := log + Notify(ValuesChanged);
    }

    /**
     * A bound that is not positive, or fuzzily equal to the current one, is ignored;
     * otherwise it replaces the bound and every score is lowered to it if above it.
     */
    method SetMaxValue(m: real)
      requires Valid()
      modifies this`maxValue, this`values, this`log
      ensures Valid()
      ensures FuzzyEqual(old(maxValue), m) || m <= 0.0 ==>
        maxValue == old(maxValue) && values == old(values) && log == old(log)
      ensures !FuzzyEqual(old(maxValue), m) && m > 0.0 ==>
        maxValue == m && |values| == |old(values)| && log == old(log) + Notify(MaxValueChanged) &&
        forall i :: 0 <= i < |values| ==> values[i] == Min(old(values)[i], m)
    {
      if FuzzyEqual(maxValue, m) || m <= 0.0 {
        return;
      }
      maxValue := m;
      NormalizeValues();
      log := log + Notify(MaxValueChanged);
    }

    method SetGridLines(count: int)
      requires Valid()
      modifies this`gridLines, this`log
      ensures Valid()
      ensures gridLines == if count < 1 then old(gridLines) else count
      ensures log == old(log) + if count == old(gridLines) || count < 1 then [] else Notify(GridLinesChanged)
    {
      if count == gridLines || count < 1 {
        return;
      }
      gridLines := count;
      log := log + Notify(GridLinesChanged);
    }

    method SetMargin(m: int)
      requires Valid()
      modifies this`margin, this`log
      ensures Valid()
      ensures margin == if m < 0 then old(margin) else m
      ensures log == old(log) + if m == old(margin) || m < 0 then [] else Notify(MarginChanged)
    {
      if m == margin || m < 0 {
        return;
      }
      margin := m;
      log := log + Notify(MarginChanged);
    }

    method SetFillColor(c: Color)
      requires Valid()
      modifies this`fillColor, this`log
      ensures Valid()
      ensures fillColor == c
      ensures log == old(log) + if c == old(fillColor) then [] else Notify(FillColorChanged)
    {
      if c == fillColor {
        return;
      }
      fillColor := c;
      log := log + Notify(FillColorChanged);
    }

    method SetStrokeColor(c: Color)
      requires Valid()
      modifies this`strokeColor, this`log
      ensures Valid()
      ensures strokeColor == c
      ensures log == old(log) + if c == old(strokeColor) then [] else Notify(StrokeColorChanged)
    {
      if c == strokeColor {
        return;
      }
      strokeColor := c;
      log := log + Notify(StrokeColorChanged);
    }

    method SetPointColor(c: Color)
      requires Valid()
      modifies this`pointColor, this`log
      ensures Valid()
      ensures pointColor == c
      ensures log == old(log) + if c == old(pointColor) then [] else Notify(PointColorChanged)
    {
      if c == pointColor {
        return;
      }
      pointColor := c;
      log := log + Notify(PointColorChanged);
    }

    method SetGridColor(c: Color)
      requires Valid()
      modifies this`gridColor, this`log
      ensures Valid()
      ensures gridColor == c
      ensures log == old(log) + if c == old(gridColor) then [] else Notify(GridColorChanged)
    {
      if c == gridColor {
        return;
      }
      gridColor := c;
      log := log + Notify(GridColorChanged);
    }

    method SetLabelColor(c: Color)
      requires Valid()
      modifies this`labelColor, this`log
      ensures Valid()
      ensures labelColor == c
      ensures log == old(log) + if c == old(labelColor) then [] else Notify(LabelColorChanged)
    {
      if c == labelColor {
        return;
      }
      labelColor := c;
      log := log + Notify(LabelColorChanged);
    }

    method SetBackgroundColor(c: Color)
      requires Valid()
      modifies this`backgroundColor, this`log
      ensures Valid()
      ensures backgroundColor == c
      ensures log == old(log) + if c == old(backgroundColor) then [] else Notify(BackgroundColorChanged)
    {
      if c == backgroundColor {
        return;
      }
      backgroundColor := c;
      log := log + Notify(BackgroundColorChanged);
    }

    method SetShowPoints(enabled: bool)
      requires Valid()
      modifies this`showPoints, this`log
      ensures Valid()
      ensures showPoints == enabled
      ensures log == old(log) + if enabled == old(showPoints) then [] else Notify(ShowPointsChanged)
    {
      if enabled == showPoints {
        return;
      }
      showPoints := enabled;
      log := log + Notify(ShowPointsChanged);
    }

    /**
     * An unknown name is ignored; otherwise the first position holding the name
     * takes the value clamped into [0, maxValue], and valuesChanged is raised even
     * when the stored score does not change.
     */
    method SetEmotionValue(name: string, v: real)
      modifies this`values, this`log
      ensures values == SetValueAt(labels, old(values), maxValue, name, v)
      ensures log == old(log) + WriteEvents(labels, name)
      ensures old(Valid()) ==> Valid()
    {
      var index := IndexOf(labels, name);
      if index < 0 {
        return;
      }
      StoreScore(index, v);
      NormalizeValues();
      log := log + Notify(ValuesChanged);
    }

    /** The write before the repair pass: a list too short for `index` is first resized to the label count. */
    method StoreScore(index: nat, v: real)
      requires index < |labels|
      modifies this`values
      ensures values == (if |old(values)| <= index then Resized(old(values), |labels|) else old(values))[index := v]
    {
      if |values| <= index {
        // QList::resize pads with invalid variants, which read as 0.0.
        values := Resized(values, |labels|);
      }
      values := values[index := v];
    }

    /** SetEmotionValue applied to each entry of the map in ascending key order. */
    method SetEmotionScores(scores: ScoreMap)
      requires Valid()
      modifies this`values, this`log
      ensures Valid()
      ensures values == ApplyScores(labels, old(values), maxValue, scores)
      ensures log == old(log) + ScoreEvents(labels, scores)
    {
      var entries: seq<(string, real)> := scores;
      for i := 0 to |entries|
        invariant Valid()
        invariant values == ApplyScores(labels, old(values), maxValue, entries[..i])
        invariant log == old(log) + ScoreEvents(labels, entries[..i])
      {
        BatchStep(labels, old(values), maxValue, entries, i);
        AppendAssoc(old(log), ScoreEvents(labels, entries[..i]), WriteEvents(labels, entries[i].0));
        SetEmotionValue(entries[i].0, entries[i].1);
      }
      assert entries[..|entries|] == entries;
    }

    /**
     * Where the value `value` of spoke `index` is drawn for a chart of outer radius
     * `radius`: the centre when there are no labels, otherwise on that spoke at
     * distance radius * value / maxValue.
     */
    function ValueToPoint(index: int, value: real, radius: real): (p: PolarPoint)
      reads this
      requires maxValue > 0.0
      ensures p == Origin <==> |labels| == 0
      ensures p.OnSpoke? ==> p.index == index && p.count == |labels|
      ensures p.OnSpoke? && 0.0 <= radius && 0.0 <= value <= maxValue ==> 0.0 <= p.distance <= radius
      ensures p.OnSpoke? && value == maxValue ==> p.distance == radius
      ensures p.OnSpoke? && value == 0.0 ==> p.distance == 0.0
    {
      if |labels| == 0 then Origin
      else
        ScaleWithin(radius, value, maxValue);
        OnSpoke(index, |labels|, (radius * value) / maxValue)
    }
  }

  /** Concatenation regroups; used to extend the event log one write at a time. */
  lemma AppendAssoc<T>(a: seq<T>, b: seq<T>, c: seq<T>)
    ensures a + (b + c) == (a + b) + c
  {
  }

  /** The batch over the first i + 1 entries is the batch over the first i, then entry i. */
  lemma BatchStep(labels: seq<string>, vs: seq<real>, hi: real, e: seq<(string, real)>, i: nat)
    requires i < |e|
    ensures ApplyScores(labels, vs, hi, e[..i + 1]) ==
      SetValueAt(labels, ApplyScores(labels, vs, hi, e[..i]), hi, e[i].0, e[i].1)
    ensures ScoreEvents(labels, e[..i + 1]) ==
      ScoreEvents(labels, e[..i]) + WriteEvents(labels, e[i].0)
  {
    assert e[..i + 1][..i] == e[..i];
  }

  /** radius * value / max stays within [0, radius] when value lies in [0, max]. */
  lemma ScaleWithin(radius: real, value: real, max: real)
    requires max > 0.0
    ensures 0.0 <= radius && 0.0 <= value <= max ==> 0.0 <= (radius * value) / max <= radius
    ensures (radius * max) / max == radius
  {
    if 0.0 <= radius && 0.0 <= value <= max {
      assert radius * value <= radius * max;
    }
  }

  // Client scenarios: what a caller can conclude from the contracts alone.

  method ScenarioLabelsThenValue() {
    var w := new EmotionRadarWidget();
    var abc := ["A", "B", "C"];
    w.SetLabels(abc);
    assert w.labels == abc && w.values == Zeros(3);
    assert Zeros(3) == [0.0, 0.0, 0.0];
    assert "B" in abc && IndexOf(abc, "B") == 1 by {
      assert abc[1] == "B" && abc[0] != "B";
    }
    w.SetEmotionValue("B", 0.4);
    assert w.values == [0.0, 0.0, 0.0][1 := Clamp(0.4, 1.0)];
    assert w.values == [0.0, 0.4, 0.0];
  }

  method ScenarioLowerMaxValue() {
    var w := new EmotionRadarWidget();
    w.SetValues([0.8, 0.8, 0.8, 0.8, 0.8, 0.8, 0.8, 0.8]);
    w.SetMaxValue(0.5);
    assert forall i :: 0 <= i < |w.values| ==> w.values[i] == 0.5;
  }

  method ScenarioScoreAboveRange() {
    var w := new EmotionRadarWidget();
    var scores: ScoreMap := [("Happy", 2.0)];
    ghost var before := w.values;
    w.SetEmotionScores(scores);
    ApplyScoresAt(w.labels, before, 1.0, scores);
    assert w.values[0] == 1.0;
  }
}
