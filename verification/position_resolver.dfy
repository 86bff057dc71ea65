/**
 * Where the cursor goes for the iterator's current position: interpolated
 * across a collapsed multi-rest, or at the leftmost staff entry of the visible
 * voice entries; then spanning the system's staff lines vertically.
 */
module PositionResolver {
  import opened Wrappers
  import opened Score
  import opened Graphics

  /** The resolved horizontal position and the system it lies in. */
  datatype Position = Position(x: real, system: System)

  /** How far into a multi-rest run the cursor is: ordinal / (run length + 1). */
  function MultiRestRatio(ordinal: nat, total: nat): real
  {
    ordinal as real / (total + 1) as real
  }

  /**
   * The x of the cursor in a collapsed multi-rest: past the measure's leading
   * instructions, then the ratio of the remaining width.
   */
  function MultiRestX(m: GraphicalMeasure, ordinal: nat): real
  {
    var effectiveWidth := m.width - m.beginInstructionsWidth;
    m.absoluteX + m.beginInstructionsWidth + MultiRestRatio(ordinal, m.multipleRestMeasures) * effectiveWidth
  }

  /** For an ordinal inside the run, the ratio lies strictly between 0 and 1. */
  lemma MultiRestRatioInOpenUnit(ordinal: nat, total: nat)
    requires 1 <= ordinal <= total
    ensures 0.0 < MultiRestRatio(ordinal, total) < 1.0
  {
  }

  /**
   * For an ordinal inside the run, the cursor stays within the measure, past
   * its leading instructions and, when any width remains, before its end.
   */
  lemma MultiRestXWithinMeasure(m: GraphicalMeasure, ordinal: nat)
    requires 1 <= ordinal <= m.multipleRestMeasures
    requires m.beginInstructionsWidth <= m.width
    ensures m.absoluteX + m.beginInstructionsWidth <= MultiRestX(m, ordinal) <= m.absoluteX + m.width
    ensures m.beginInstructionsWidth < m.width ==> MultiRestX(m, ordinal) < m.absoluteX + m.width
  {
    var r := MultiRestRatio(ordinal, m.multipleRestMeasures);
    var w := m.width - m.beginInstructionsWidth;
    MultiRestRatioInOpenUnit(ordinal, m.multipleRestMeasures);
    assert w - r * w == (1.0 - r) * w;
    assert 0.0 <= r * w;
    assert 0.0 <= (1.0 - r) * w;
    assert w > 0.0 ==> 0.0 < (1.0 - r) * w;
    assert MultiRestX(m, ordinal) == m.absoluteX + m.beginInstructionsWidth + r * w;
  }

  /** Across a run, a later ordinal never places the cursor further left. */
  lemma MultiRestXMonotone(m: GraphicalMeasure, o1: nat, o2: nat)
    requires o1 <= o2
    requires m.beginInstructionsWidth <= m.width
    ensures MultiRestX(m, o1) <= MultiRestX(m, o2)
  {
  }

  /** A run of three collapsed measures: the first is at 1/4, the third at 3/4. */
  lemma ThreeMeasureRunScenario()
    ensures MultiRestRatio(1, 3) == 0.25 && MultiRestRatio(3, 3) == 0.75
  {
  }

  /**
   * The index of the leftmost staff entry, the first one among equals.
   */
  function Leftmost(entries: seq<StaffEntry>): (k: nat)
    requires |entries| > 0
    ensures k < |entries|
    ensures forall j :: 0 <= j < |entries| ==> entries[k].absoluteX <= entries[j].absoluteX
    ensures forall j :: 0 <= j < k ==> entries[j].absoluteX > entries[k].absoluteX
  {
    if |entries| == 1 then 0
    else
      var k := Leftmost(entries[1..]) + 1;
      if entries[0].absoluteX <= entries[k].absoluteX then 0 else k
  }

  /**
   * The staff entries drawn for the voice entries that have one, in order.
   * Sorting an array moves its undefined elements to the end without
   * comparing them, so the leftmost element after the sort is the leftmost
   * of these.
   */
  function DefinedStaffEntries(voiceEntries: seq<VoiceEntry>, layout: Layout): (r: seq<StaffEntry>)
    ensures |r| <= |voiceEntries|
    ensures forall e :: e in r <==> exists i :: 0 <= i < |voiceEntries| && layout.staffEntryOf(voiceEntries[i]) == Some(e)
  {
    if |voiceEntries| == 0 then []
    else
      var rest := DefinedStaffEntries(voiceEntries[1..], layout);
      DefinedStaffEntriesStep(voiceEntries, layout, rest);
      match layout.staffEntryOf(voiceEntries[0])
      case None => rest
      case Some(e) => [e] + rest
  }

  lemma DefinedStaffEntriesStep(voiceEntries: seq<VoiceEntry>, layout: Layout, rest: seq<StaffEntry>)
    requires |voiceEntries| > 0
    requires forall e :: e in rest <==> exists i :: 0 <= i < |voiceEntries| - 1 && layout.staffEntryOf(voiceEntries[1..][i]) == Some(e)
    ensures forall e :: (exists i :: 1 <= i < |voiceEntries| && layout.staffEntryOf(voiceEntries[i]) == Some(e)) <==> e in rest
  {
    forall e
      ensures (exists i :: 1 <= i < |voiceEntries| && layout.staffEntryOf(voiceEntries[i]) == Some(e)) <==> e in rest
    {
      if e in rest {
        var i :| 0 <= i < |voiceEntries| - 1 && layout.staffEntryOf(voiceEntries[1..][i]) == Some(e);
        assert layout.staffEntryOf(voiceEntries[i + 1]) == Some(e);
      }
      if exists i :: 1 <= i < |voiceEntries| && layout.staffEntryOf(voiceEntries[i]) == Some(e) {
        var i :| 1 <= i < |voiceEntries| && layout.staffEntryOf(voiceEntries[i]) == Some(e);
        assert layout.staffEntryOf(voiceEntries[1..][i - 1]) == Some(e);
      }
    }
  }

  /** The iterator has ended, or has no current or no visible voice entries. */
  predicate Idle(it: IteratorState)
  {
    it.endReached || !it.hasCurrentVoiceEntries || |it.visibleVoiceEntries(None)| == 0
  }

  /**
   * The source can place the cursor without failing: outside a multi-rest,
   * at least one visible voice entry has a staff entry (otherwise the first
   * element of the sorted array is undefined and reading its position throws).
   */
  predicate Resolvable(it: IteratorState, layout: Layout)
  {
    Idle(it) || it.currentMeasure.isReducedToMultiRest ||
    |DefinedStaffEntries(it.visibleVoiceEntries(None), layout)| > 0
  }

  /**
   * The cursor position for the iterator's current state, or None when there
   * is none. An idle iterator resolves nothing. In a multi-rest the position
   * is the interpolated x in the measure's system. Otherwise it is the x of a
   * visible voice entry's staff entry that no other one lies left of, in that
   * entry's system; None means the staff entry chosen has no system.
   */
  function ResolvePosition(it: IteratorState, layout: Layout): (r: Option<Position>)
    requires Resolvable(it, layout)
    ensures Idle(it) ==> r.None?
    ensures !Idle(it) && it.currentMeasure.isReducedToMultiRest ==>
      var m := layout.graphicalMeasureAt(it.currentMeasure.index);
      && (r.Some? <==> m.parentSystem.Some?)
      && (r.Some? ==> r.value.x == MultiRestX(m, it.currentMeasure.multipleRestMeasureNumber) && m.parentSystem == Some(r.value.system))
    ensures !Idle(it) && !it.currentMeasure.isReducedToMultiRest ==>
      var vs := it.visibleVoiceEntries(None);
      exists i :: 0 <= i < |vs| && layout.staffEntryOf(vs[i]).Some? &&
        (forall j :: 0 <= j < |vs| && layout.staffEntryOf(vs[j]).Some? ==>
           layout.staffEntryOf(vs[i]).value.absoluteX <= layout.staffEntryOf(vs[j]).value.absoluteX) &&
        (if r.Some?
         then layout.staffEntryOf(vs[i]) == Some(StaffEntry(r.value.x, Some(r.value.system)))
         else layout.staffEntryOf(vs[i]).value.parentSystem.None?)
  {
    var voiceEntries := it.visibleVoiceEntries(None);
    if Idle(it) then None
    else if it.currentMeasure.isReducedToMultiRest then
      var m := layout.graphicalMeasureAt(it.currentMeasure.index);
      match m.parentSystem
      case None => None
      case Some(s) => Some(Position(MultiRestX(m, it.currentMeasure.multipleRestMeasureNumber), s))
    else
      var staffEntries := DefinedStaffEntries(voiceEntries, layout);
      var chosen := staffEntries[Leftmost(staffEntries)];
      LeftmostOfDefined(voiceEntries, layout, staffEntries, chosen);
      match chosen.parentSystem
      case None => None
      case Some(s) => Some(Position(chosen.absoluteX, s))
  }

  /** The leftmost of the defined staff entries is some voice entry's, and left of all of them. */
  lemma LeftmostOfDefined(voiceEntries: seq<VoiceEntry>, layout: Layout, staffEntries: seq<StaffEntry>, chosen: StaffEntry)
    requires staffEntries == DefinedStaffEntries(voiceEntries, layout)
    requires chosen in staffEntries
    requires forall j :: 0 <= j < |staffEntries| ==> chosen.absoluteX <= staffEntries[j].absoluteX
    ensures exists i :: 0 <= i < |voiceEntries| && layout.staffEntryOf(voiceEntries[i]) == Some(chosen)
    ensures forall j :: 0 <= j < |voiceEntries| && layout.staffEntryOf(voiceEntries[j]).Some? ==>
      chosen.absoluteX <= layout.staffEntryOf(voiceEntries[j]).value.absoluteX
  {
    forall j | 0 <= j < |voiceEntries| && layout.staffEntryOf(voiceEntries[j]).Some?
      ensures chosen.absoluteX <= layout.staffEntryOf(voiceEntries[j]).value.absoluteX
    {
      var e := layout.staffEntryOf(voiceEntries[j]).value;
      assert e in staffEntries;
      var k :| 0 <= k < |staffEntries| && staffEntries[k] == e;
    }
  }

  /**
   * In a multi-rest at an ordinal inside its run, a resolved x lies within
   * the graphical measure, past its leading instructions.
   */
  lemma ResolveMultiRest(it: IteratorState, layout: Layout)
    requires it.currentMeasure.isReducedToMultiRest
    requires ResolvePosition(it, layout).Some?
    requires var m := layout.graphicalMeasureAt(it.currentMeasure.index);
      1 <= it.currentMeasure.multipleRestMeasureNumber <= m.multipleRestMeasures &&
      m.beginInstructionsWidth <= m.width
    ensures var m := layout.graphicalMeasureAt(it.currentMeasure.index);
      var x := ResolvePosition(it, layout).value.x;
      m.absoluteX + m.beginInstructionsWidth <= x <= m.absoluteX + m.width &&
      Some(ResolvePosition(it, layout).value.system) == m.parentSystem
  {
    MultiRestXWithinMeasure(layout.graphicalMeasureAt(it.currentMeasure.index), it.currentMeasure.multipleRestMeasureNumber);
  }
}
