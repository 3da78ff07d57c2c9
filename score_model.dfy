/**
 * The value-level rules of the emotion radar chart's score model: how a raw
 * value list is repaired to match the labels (EmotionRadarWidget::normalizeValues),
 * how a label is looked up (QStringList::indexOf), what one named write does
 * (setEmotionValue) and what a batch of named writes does (setEmotionScores).
 * The class in radar_widget.dfy is specified in terms of these functions.
 */
module ScoreModel {

  datatype Option<T> = None | Some(value: T)

  /** The eight category names a new chart starts with, in angular order. */
  const DEFAULT_EMOTIONS: seq<string> :=
    ["Happy", "Sad", "Angry", "Fearful", "Disgust", "Surprised", "Neutral", "Contempt"]

  /** Every score of `vs` lies in the displayable range [0, hi]. */
  ghost predicate InRange(vs: seq<real>, hi: real) {
    forall i :: 0 <= i < |vs| ==> 0.0 <= vs[i] <= hi
  }

  /** QVariantList(n, 0.0): a list of `n` zero scores. */
  function Zeros(n: nat): (r: seq<real>)
    ensures |r| == n
    ensures forall i :: 0 <= i < n ==> r[i] == 0.0
  {
    if n == 0 then [] else Zeros(n - 1) + [0.0]
  }

  /** `vs` rebuilt to length `n`: the overlapping prefix is kept, the extension is zero. */
  function Resized(vs: seq<real>, n: nat): (r: seq<real>)
    ensures |r| == n
    ensures forall i :: 0 <= i < n ==> r[i] == if i < |vs| then vs[i] else 0.0
  {
    if n <= |vs| then vs[..n] else vs + Zeros(n - |vs|)
  }

  /** One score forced into [0, hi]: first raised to 0, then lowered to hi. */
  function Clamp(v: real, hi: real): (r: real)
    ensures 0.0 <= hi ==> 0.0 <= r <= hi
    ensures 0.0 <= v <= hi ==> r == v
    ensures v < 0.0 && 0.0 <= hi ==> r == 0.0
    ensures hi < v && 0.0 <= hi ==> r == hi
  {
    var raised := if v < 0.0 then 0.0 else v;
    if raised > hi then hi else raised
  }

  /** Every score of `vs` clamped into [0, hi], positions kept. */
  function ClampAll(vs: seq<real>, hi: real): (r: seq<real>)
    ensures |r| == |vs|
    ensures forall i :: 0 <= i < |vs| ==> r[i] == Clamp(vs[i], hi)
    ensures 0.0 <= hi ==> InRange(r, hi)
  {
    if vs == [] then [] else ClampAll(vs[..|vs| - 1], hi) + [Clamp(vs[|vs| - 1], hi)]
  }

  /**
   * The repair pass for a chart with `count` labels: with no labels the list is
   * left alone; otherwise a list of the wrong length is rebuilt to `count`
   * entries and then every entry is clamped into [0, hi].
   */
  function Normalized(count: nat, vs: seq<real>, hi: real): (r: seq<real>)
    ensures count == 0 ==> r == vs
    ensures count > 0 ==> |r| == count
    ensures count > 0 && 0.0 <= hi ==> InRange(r, hi)
  {
    if count == 0 then vs
    else ClampAll(if |vs| != count then Resized(vs, count) else vs, hi)
  }

  /**
   * Position `i` after the repair pass holds the clamped old score, or clamped 0
   * past the old end of the list.
   */
  lemma NormalizedAt(count: nat, vs: seq<real>, hi: real)
    requires count > 0
    ensures forall i :: 0 <= i < count ==>
      Normalized(count, vs, hi)[i] == Clamp(if i < |vs| then vs[i] else 0.0, hi)
  {
  }

  /** A list that already has the right length and range is left as it is. */
  lemma NormalizedKeepsValid(count: nat, vs: seq<real>, hi: real)
    requires count > 0 && |vs| == count && InRange(vs, hi)
    ensures Normalized(count, vs, hi) == vs
  {
    var r := Normalized(count, vs, hi);
    NormalizedAt(count, vs, hi);
    forall i | 0 <= i < count ensures r[i] == vs[i] {
      assert 0.0 <= vs[i] <= hi;
    }
  }

  /** Clamping twice is clamping once, whatever the bound. */
  lemma ClampIdempotent(v: real, hi: real)
    ensures Clamp(Clamp(v, hi), hi) == Clamp(v, hi)
  {
  }

  /** Running the repair pass a second time changes nothing. */
  lemma NormalizedIdempotent(count: nat, vs: seq<real>, hi: real)
    ensures Normalized(count, Normalized(count, vs, hi), hi) == Normalized(count, vs, hi)
  {
    if count > 0 {
      var once := Normalized(count, vs, hi);
      var twice := Normalized(count, once, hi);
      NormalizedAt(count, vs, hi);
      NormalizedAt(count, once, hi);
      forall i | 0 <= i < count ensures twice[i] == once[i] {
        ClampIdempotent(if i < |vs| then vs[i] else 0.0, hi);
      }
    }
  }

  /**
   * QStringList::indexOf: the first position holding `x`, or -1 when there is none.
   */
  function IndexOf(xs: seq<string>, x: string): (r: int)
    ensures -1 <= r < |xs|
    ensures r == -1 <==> x !in xs
    ensures 0 <= r ==> xs[r] == x && forall j :: 0 <= j < r ==> xs[j] != x
  {
    if |xs| == 0 then -1
    else if xs[0] == x then 0
    else
      var k := IndexOf(xs[1..], x);
      if k < 0 then -1 else k + 1
  }

  /**
   * The value list after setEmotionValue(name, v) on labels `labels` and bound `hi`:
   * an unknown name leaves the list alone; otherwise the list is grown to the label
   * count if it is too short to hold the found position, the value is written
   * there, and the repair pass runs.
   */
  function SetValueAt(labels: seq<string>, vs: seq<real>, hi: real, name: string, v: real): seq<real>
  {
    var index := IndexOf(labels, name);
    if index < 0 then vs
    else
      var grown := if |vs| <= index then Resized(vs, |labels|) else vs;
      Normalized(|labels|, grown[index := v], hi)
  }

  /**
   * setEmotionValue in any state: an unknown name leaves the list alone; otherwise the
   * list gets the label count, the first position holding the name gets the clamped
   * value, and every other position its clamped old score (0 past the old end).
   */
  lemma SetValueAtShape(labels: seq<string>, vs: seq<real>, hi: real, name: string, v: real)
    ensures name !in labels ==> SetValueAt(labels, vs, hi, name, v) == vs
    ensures name in labels ==> |SetValueAt(labels, vs, hi, name, v)| == |labels|
    ensures name in labels ==> SetValueAt(labels, vs, hi, name, v)[IndexOf(labels, name)] == Clamp(v, hi)
    ensures name in labels ==> forall j :: 0 <= j < |labels| && j != IndexOf(labels, name) ==>
      SetValueAt(labels, vs, hi, name, v)[j] == Clamp(if j < |vs| then vs[j] else 0.0, hi)
  {
    var index := IndexOf(labels, name);
    if index >= 0 {
      var grown := if |vs| <= index then Resized(vs, |labels|) else vs;
      NormalizedAt(|labels|, grown[index := v], hi);
    }
  }

  /**
   * On a list that already matches the labels and the range, setEmotionValue
   * changes only the first position holding `name`, to the clamped value.
   */
  lemma SetValueAtValid(labels: seq<string>, vs: seq<real>, hi: real, name: string, v: real)
    requires |vs| == |labels| && InRange(vs, hi)
    ensures SetValueAt(labels, vs, hi, name, v) ==
      if name in labels then vs[IndexOf(labels, name) := Clamp(v, hi)] else vs
    ensures InRange(SetValueAt(labels, vs, hi, name, v), hi)
  {
    SetValueAtShape(labels, vs, hi, name, v);
    if name in labels {
      var r := SetValueAt(labels, vs, hi, name, v);
      var want := vs[IndexOf(labels, name) := Clamp(v, hi)];
      forall j | 0 <= j < |labels| ensures r[j] == want[j] {
        if j != IndexOf(labels, name) {
          assert 0.0 <= vs[j] <= hi;
        }
      }
    }
  }

  /** QString ordering: lexicographic on characters, a proper prefix coming first. */
  predicate StrLess(a: string, b: string) {
    |b| > 0 && (|a| == 0 || a[0] < b[0] || (a[0] == b[0] && StrLess(a[1..], b[1..])))
  }

  lemma {:induction false} StrLessIrreflexive(a: string)
    ensures !StrLess(a, a)
  {
    if |a| > 0 {
      StrLessIrreflexive(a[1..]);
    }
  }

  /** A QMap<QString, double> in its iteration order: keys strictly ascending. */
  type ScoreMap = e: seq<(string, real)> | forall i, j :: 0 <= i < j < |e| ==> StrLess(e[i].0, e[j].0)
    witness []

  /** The value the last entry named `name` carries, if any entry is named so. */
  function LastValue(e: seq<(string, real)>, name: string): (r: Option<real>)
    ensures r.None? <==> forall k :: 0 <= k < |e| ==> e[k].0 != name
    ensures r.Some? ==> (name, r.value) in e
  {
    if e == [] then None
    else if e[|e| - 1].0 == name then Some(e[|e| - 1].1)
    else LastValue(e[..|e| - 1], name)
  }

  /** In a QMap every key occurs once, so a lookup finds exactly the stored pair. */
  lemma {:induction false} ScoreMapLookup(e: ScoreMap, name: string, v: real)
    ensures LastValue(e, name) == Some(v) <==> (name, v) in e
  {
    if e != [] {
      var init: ScoreMap := e[..|e| - 1];
      ScoreMapLookup(init, name, v);
      if e[|e| - 1].0 == name && (name, v) in init {
        var k :| 0 <= k < |init| && init[k] == (name, v);
        assert StrLess(e[k].0, e[|e| - 1].0);
        StrLessIrreflexive(name);
      }
    }
  }

  /**
   * The value list after setEmotionScores(e): setEmotionValue applied to each
   * entry in iteration order (the fold is written from the back so that a loop
   * over a prefix of the entries can be specified by it).
   */
  function ApplyScores(labels: seq<string>, vs: seq<real>, hi: real, e: seq<(string, real)>): seq<real>
    decreases |e|
  {
    if e == [] then vs
    else SetValueAt(labels, ApplyScores(labels, vs, hi, e[..|e| - 1]), hi, e[|e| - 1].0, e[|e| - 1].1)
  }

  /** The entries of `e` whose names are labels, order kept. */
  function KnownOnly(labels: seq<string>, e: seq<(string, real)>): (r: seq<(string, real)>)
    ensures |r| <= |e|
    ensures forall k :: 0 <= k < |r| ==> r[k] in e && r[k].0 in labels
  {
    if e == [] then []
    else KnownOnly(labels, e[..|e| - 1]) + (if e[|e| - 1].0 in labels then [e[|e| - 1]] else [])
  }

  /** Entries naming no label have no effect on a batch update. */
  lemma {:induction false} ApplyScoresIgnoresUnknown(labels: seq<string>, vs: seq<real>, hi: real, e: seq<(string, real)>)
    ensures ApplyScores(labels, vs, hi, e) == ApplyScores(labels, vs, hi, KnownOnly(labels, e))
  {
    if e != [] {
      var init := e[..|e| - 1];
      var last := e[|e| - 1];
      ApplyScoresIgnoresUnknown(labels, vs, hi, init);
      var before := ApplyScores(labels, vs, hi, init);
      assert ApplyScores(labels, vs, hi, e) == SetValueAt(labels, before, hi, last.0, last.1);
      var known := KnownOnly(labels, e);
      if last.0 in labels {
        assert known == KnownOnly(labels, init) + [last];
        assert known[..|known| - 1] == KnownOnly(labels, init);
        assert ApplyScores(labels, vs, hi, known) == SetValueAt(labels, before, hi, last.0, last.1);
      } else {
        assert known == KnownOnly(labels, init);
        assert SetValueAt(labels, before, hi, last.0, last.1) == before;
      }
    }
  }

  /**
   * What a batch of named writes leaves at position `i`, stated directly: the
   * clamped value of the last entry naming labels[i] when `i` is where that label
   * first occurs, and the old score otherwise.
   */
  function ScoreAfterBatch(labels: seq<string>, vs: seq<real>, hi: real, e: seq<(string, real)>, i: nat): real
    requires i < |labels| && |vs| == |labels|
  {
    match LastValue(e, labels[i])
    case Some(v) => if IndexOf(labels, labels[i]) == i then Clamp(v, hi) else vs[i]
    case None => vs[i]
  }

  /** One more entry moves position `i` from the outcome for `init` to the outcome for `init + [last]`. */
  lemma ApplyScoresStep(labels: seq<string>, vs: seq<real>, hi: real, init: seq<(string, real)>, last: (string, real), before: seq<real>, i: nat)
    requires |vs| == |labels| && |before| == |labels| && 0.0 <= hi && InRange(before, hi)
    requires i < |labels| && before[i] == ScoreAfterBatch(labels, vs, hi, init, i)
    ensures SetValueAt(labels, before, hi, last.0, last.1)[i] == ScoreAfterBatch(labels, vs, hi, init + [last], i)
  {
    var e := init + [last];
    assert e[..|e| - 1] == init;
    SetValueAtValid(labels, before, hi, last.0, last.1);
    if last.0 == labels[i] {
      assert LastValue(e, labels[i]) == Some(last.1);
    } else {
      assert LastValue(e, labels[i]) == LastValue(init, labels[i]);
    }
  }

  /**
   * A batch update on a list that matches the labels and the range keeps the length
   * and the range, and agrees with ScoreAfterBatch at every position.
   */
  lemma {:induction false} ApplyScoresAt(labels: seq<string>, vs: seq<real>, hi: real, e: seq<(string, real)>)
    requires |vs| == |labels| && 0.0 <= hi && InRange(vs, hi)
    ensures |ApplyScores(labels, vs, hi, e)| == |labels|
    ensures InRange(ApplyScores(labels, vs, hi, e), hi)
    ensures forall i: nat :: i < |labels| ==> ApplyScores(labels, vs, hi, e)[i] == ScoreAfterBatch(labels, vs, hi, e, i)
  {
    if e != [] {
      var init := e[..|e| - 1];
      var last := e[|e| - 1];
      assert e == init + [last];
      ApplyScoresAt(labels, vs, hi, init);
      var before := ApplyScores(labels, vs, hi, init);
      SetValueAtValid(labels, before, hi, last.0, last.1);
      forall i: nat | i < |labels|
        ensures ApplyScores(labels, vs, hi, e)[i] == ScoreAfterBatch(labels, vs, hi, e, i)
      {
        ApplyScoresStep(labels, vs, hi, init, last, before, i);
      }
    } else {
      forall i: nat | i < |labels| ensures vs[i] == ScoreAfterBatch(labels, vs, hi, e, i) {
      }
    }
  }

  /** Abs and Min over the reals (qAbs, qMin). */
  function Abs(x: real): (r: real)
    ensures 0.0 <= r && (r == x || r == -x)
  {
    if x < 0.0 then -x else x
  }

  function Min(a: real, b: real): (r: real)
    ensures r <= a && r <= b && (r == a || r == b)
  {
    if a < b then a else b
  }

  /**
   * qFuzzyCompare for doubles: p1 and p2 are treated as equal when they differ by at
   * most a 10^-12 fraction of the smaller magnitude (the comparison is read exactly,
   * over the reals).
   */
  predicate FuzzyEqual(p1: real, p2: real) {
    Abs(p1 - p2) * 1000000000000.0 <= Min(Abs(p1), Abs(p2))
  }

  /** Fuzzy equality includes equality and, away from zero, nothing of the other sign. */
  lemma FuzzyEqualFacts(p1: real, p2: real)
    ensures FuzzyEqual(p1, p1)
    ensures 0.0 < p1 && p2 <= 0.0 ==> !FuzzyEqual(p1, p2)
  {
  }
}
