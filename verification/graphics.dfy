/**
 * The graphical layout as the cursor sees it: pages, systems with their staff
 * lines, graphical measures and staff entries, and the layout engine's answers
 * to the cursor's queries, supplied as functions.
 */
module Graphics {
  import opened Wrappers
  import opened Score

  /** A staff line of a system: its offset from the system's top, and its height. */
  datatype StaffLine = StaffLine(relativeY: real, staffHeight: real)

  /** A laid-out system: its absolute vertical position, its staff lines, and its page. */
  datatype MusicSystem = MusicSystem(absoluteY: real, staffLines: seq<StaffLine>, pageNumber: int)

  /** Every system the layout engine produces has at least one staff line. */
  type System = s: MusicSystem | |s.staffLines| > 0
    witness MusicSystem(0.0, [StaffLine(0.0, 0.0)], 1)

  /**
   * A page: its number and the last timestamp of the last system on it, which
   * is where the page's share of the score ends.
   */
  datatype Page = Page(pageNumber: int, lastSystemTimestamp: real)

  /**
   * The graphical measure shown for a measure (on the first staff): its
   * absolute x and width, the width of its leading clef/key/time instructions,
   * the length of the multi-rest run it stands for, and its system.
   */
  datatype GraphicalMeasure = GraphicalMeasure(
    absoluteX: real,
    width: real,
    beginInstructionsWidth: real,
    multipleRestMeasures: nat,
    parentSystem: Option<System>)

  /** A graphical staff entry: its absolute x and the system of its measure. */
  datatype StaffEntry = StaffEntry(absoluteX: real, parentSystem: Option<System>)

  /**
   * The layout engine's answers: the pages in page order, the graphical
   * measure of a measure index, the staff entry drawn for a voice entry (None
   * when the entry has none), the x position and system of a sheet timestamp, and the top and bottom y of a
   * cursor drawn at an x in a system.
   */
  datatype Layout = Layout(
    musicPages: seq<Page>,
    graphicalMeasureAt: nat -> GraphicalMeasure,
    staffEntryOf: VoiceEntry -> Option<StaffEntry>,
    xPositionFromTimestamp: real -> (real, Option<System>),
    cursorPoints: (real, Option<System>) -> (real, real))

  /** The vertical extent of the cursor in a system: top and height. */
  datatype Span = Span(y: real, height: real)

  /** From the top of the first staff line to the bottom of the last one. */
  function VerticalSpan(s: System): Span
  {
    var first := s.staffLines[0];
    var bottom := s.staffLines[|s.staffLines| - 1];
    var y := s.absoluteY + first.relativeY;
    var endY := s.absoluteY + bottom.relativeY + bottom.staffHeight;
    Span(y, endY - y)
  }

  /** Staff lines listed top to bottom, none overlapping the next, none of negative height. */
  ghost predicate StackedTopToBottom(lines: seq<StaffLine>)
  {
    && (forall i :: 0 <= i < |lines| ==> lines[i].staffHeight >= 0.0)
    && (forall i :: 0 <= i < |lines| - 1 ==> lines[i].relativeY + lines[i].staffHeight <= lines[i + 1].relativeY)
  }

  lemma {:induction false} StackedOrder(lines: seq<StaffLine>, i: nat, j: nat)
    requires StackedTopToBottom(lines)
    requires i <= j < |lines|
    ensures lines[i].relativeY <= lines[j].relativeY
    ensures lines[i].relativeY + lines[i].staffHeight <= lines[j].relativeY + lines[j].staffHeight
    decreases j - i
  {
    if i < j {
      StackedOrder(lines, i + 1, j);
    }
  }

  /**
   * When the staff lines are stacked top to bottom, the span covers every
   * staff line of the system, and so every instrument's staff.
   */
  lemma VerticalSpanCoversStaffLines(s: System)
    requires StackedTopToBottom(s.staffLines)
    ensures VerticalSpan(s).height >= 0.0
    ensures forall i :: 0 <= i < |s.staffLines| ==>
      VerticalSpan(s).y <= s.absoluteY + s.staffLines[i].relativeY &&
      s.absoluteY + s.staffLines[i].relativeY + s.staffLines[i].staffHeight <= VerticalSpan(s).y + VerticalSpan(s).height
  {
    var n := |s.staffLines|;
    forall i | 0 <= i < n
      ensures VerticalSpan(s).y <= s.absoluteY + s.staffLines[i].relativeY
      ensures s.absoluteY + s.staffLines[i].relativeY + s.staffLines[i].staffHeight <= VerticalSpan(s).y + VerticalSpan(s).height
    {
      StackedOrder(s.staffLines, 0, i);
      StackedOrder(s.staffLines, i, n - 1);
    }
    StackedOrder(s.staffLines, 0, 0);
  }
}
