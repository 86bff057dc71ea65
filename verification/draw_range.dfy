/**
 * The selection a cursor reset sets on the sheet: the draw range of the
 * engraving rules, clamped to the measures that exist.
 */
module DrawRange {
  import opened Wrappers
  import opened Score

  /** The engraving rules the cursor consults. */
  datatype Rules = Rules(minMeasureToDrawIndex: nat, maxMeasureToDrawIndex: nat, defaultColorCursor: string)

  /** The smaller of a draw index and the last measure index. */
  function ClampIndex(i: nat, last: nat): (r: nat)
    ensures r <= last && r <= i
    ensures r == i || r == last
  {
    if i < last then i else last
  }

  /** The first measure a reset lets the cursor start at. */
  function StartMeasureIndex(measures: seq<SourceMeasure>, rules: Rules): nat
    requires |measures| > 0
  {
    ClampIndex(rules.minMeasureToDrawIndex, |measures| - 1)
  }

  /** The last measure the selection of a reset covers. */
  function EndMeasureIndex(measures: seq<SourceMeasure>, rules: Rules): nat
    requires |measures| > 0
  {
    ClampIndex(rules.maxMeasureToDrawIndex, |measures| - 1)
  }

  /** A selection start already set is kept; an unset one becomes the start measure's timestamp. */
  function SelectionStartAfterReset(measures: seq<SourceMeasure>, rules: Rules, current: Option<real>): Option<real>
    requires |measures| > 0
  {
    var s := StartMeasureIndex(measures, rules);
    if current.None? && |measures| > s then Some(measures[s].absoluteTimestamp) else current
  }

  /** The selection ends where the end measure ends. */
  function SelectionEndAfterReset(measures: seq<SourceMeasure>, rules: Rules, current: Option<real>): Option<real>
    requires |measures| > 0
  {
    var e := EndMeasureIndex(measures, rules);
    if |measures| > e then Some(measures[e].absoluteTimestamp + measures[e].duration) else current
  }

  /** Both draw indices land on an existing measure, and neither exceeds its rule. */
  lemma ResetIndicesInRange(measures: seq<SourceMeasure>, rules: Rules)
    requires |measures| > 0
    ensures StartMeasureIndex(measures, rules) < |measures| && EndMeasureIndex(measures, rules) < |measures|
    ensures StartMeasureIndex(measures, rules) <= rules.minMeasureToDrawIndex
    ensures EndMeasureIndex(measures, rules) <= rules.maxMeasureToDrawIndex
    ensures rules.maxMeasureToDrawIndex < |measures| ==> EndMeasureIndex(measures, rules) == rules.maxMeasureToDrawIndex
  {
  }

  /** A reset keeps a set selection start and always sets the selection end. */
  lemma ResetSelectionShape(measures: seq<SourceMeasure>, rules: Rules, start: Option<real>, end: Option<real>)
    requires |measures| > 0
    ensures start.Some? ==> SelectionStartAfterReset(measures, rules, start) == start
    ensures SelectionStartAfterReset(measures, rules, start).Some?
    ensures SelectionEndAfterReset(measures, rules, end) ==
      Some(measures[EndMeasureIndex(measures, rules)].absoluteTimestamp + measures[EndMeasureIndex(measures, rules)].duration)
  {
  }

  /** Each measure starts where the previous one ends, and lasts a positive time. */
  ghost predicate Contiguous(measures: seq<SourceMeasure>)
  {
    && (forall i :: 0 <= i < |measures| ==> measures[i].duration > 0.0)
    && (forall i :: 0 <= i < |measures| - 1 ==>
          measures[i].absoluteTimestamp + measures[i].duration == measures[i + 1].absoluteTimestamp)
  }

  lemma {:induction false} ContiguousOrder(measures: seq<SourceMeasure>, i: nat, j: nat)
    requires Contiguous(measures)
    requires i <= j < |measures|
    ensures measures[i].absoluteTimestamp < measures[j].absoluteTimestamp + measures[j].duration
    decreases j - i
  {
    if i < j {
      ContiguousOrder(measures, i + 1, j);
    }
  }

  /**
   * On a score of contiguous measures, a reset from an unset start with a
   * draw range whose minimum does not exceed its maximum selects a non-empty
   * stretch of time.
   */
  lemma ResetSelectsNonEmptyStretch(measures: seq<SourceMeasure>, rules: Rules, end: Option<real>)
    requires |measures| > 0 && Contiguous(measures)
    requires rules.minMeasureToDrawIndex <= rules.maxMeasureToDrawIndex
    ensures SelectionStartAfterReset(measures, rules, None).value < SelectionEndAfterReset(measures, rules, end).value
  {
    ContiguousOrder(measures, StartMeasureIndex(measures, rules), EndMeasureIndex(measures, rules));
  }
}
