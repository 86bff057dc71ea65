/**
 * The cursor: its visibility, the page it is anchored to, the geometry and
 * width of its element, and the iterator it follows. The page containers, the
 * element's style and the document are abstract values; the layout engine,
 * the part manager and the iterator's steps are inputs.
 */
module Cursors {
  import opened Wrappers
  import opened Score
  import opened Graphics
  import opened PageAnchor
  import opened PositionResolver
  import opened DrawRange
  import opened CursorIds

  /** The element's placement in pixels: top, left and height. */
  datatype Geometry = Geometry(top: real, left: real, height: real)

  /** The element's fill: none yet, or the highlight gradient made for a width and color. */
  datatype CursorStyle = Unstyled | Gradient(width: real, color: string)

  /** Layout units to pixels at a zoom level; the element is drawn 1.5 units left of x. */
  function PixelGeometry(x: real, y: real, height: real, zoom: real): Geometry
  {
    Geometry(y * 10.0 * zoom, (x - 1.5) * 10.0 * zoom, height * 10.0 * zoom)
  }

  /** The element is three layout units wide. */
  function CursorWidth(zoom: real): real
  {
    3.0 * 10.0 * zoom
  }

  /** What the playback engine tells the cursor. */
  datatype PlaybackEvent =
    | CursorPositionChanged(predictedPosition: real)
    | PauseOccurred
    | SelectionEndReached
    | ResetOccurred
    | NotesPlaybackEventOccurred

  /** Where a timestamp update puts the cursor: the x and system of the sheet timestamp. */
  function TimestampTarget(t: real, manager: PartManager, layout: Layout): (real, Option<System>)
  {
    layout.xPositionFromTimestamp(manager.enrolledToSheetTimestamp(t))
  }

  class Cursor {
    /** The id of the cursor's element, unique in the document it was made in. */
    const elementId: string
    /** The element that holds the cursor's element. */
    var container: Container
    var hidden: bool
    var currentPageNumber: int
    /** False once the element's display is set to none. */
    var displayed: bool
    var width: real
    var geometry: Option<Geometry>
    var style: CursorStyle
    var iteratorState: Option<IteratorState>

    function Anchoring(): Anchor
      reads this`currentPageNumber, this`container
    {
      Anchor(currentPageNumber, container)
    }

    /**
     * The element has been placed at (x, y) with the given height; its width
     * follows the zoom, and the gradient is remade only when the width changed.
     */
    twostate predicate PlacedAt(x: real, y: real, height: real, zoom: real, color: string)
      reads this`geometry, this`width, this`style, this`displayed
    {
      && geometry == Some(PixelGeometry(x, y, height, zoom))
      && width == CursorWidth(zoom)
      && style == (if old(width) != CursorWidth(zoom) then Gradient(CursorWidth(zoom), color) else old(style))
      && displayed
    }

    /**
     * The cursor has been moved to the enrolled timestamp t: anchored to the
     * page of the timestamp's system and placed at the layout's cursor points
     * for the timestamp's x in that system.
     */
    twostate predicate TimestampPlaced(t: real, manager: PartManager, layout: Layout, zoom: real, color: string)
      reads this`currentPageNumber, this`container, this`geometry, this`width, this`style, this`displayed
    {
      var (x, system) := TimestampTarget(t, manager, layout);
      var (top, bottom) := layout.cursorPoints(x, system);
      && Anchoring() == AnchorBySystem(old(Anchoring()), system)
      && PlacedAt(x, top, bottom - top, zoom, color)
    }

    /**
     * The cursor has been reset: without a sheet or its measure list the
     * iterator and the sheet are as they were; otherwise the selection is the
     * draw range's and the iterator is `started`. Either way the cursor is then
     * placed at the enrolled timestamp of the selection start.
     */
    twostate predicate ResetDone(sheet: MusicSheet?, rules: Rules, started: IteratorState, manager: PartManager, layout: Layout, zoom: real)
      reads this`iteratorState, this`currentPageNumber, this`container, this`geometry, this`width, this`style, this`displayed, sheet
      requires sheet != null && old(sheet.sourceMeasures).Some? ==> |old(sheet.sourceMeasures).value| > 0
    {
      && (sheet == null || old(sheet.sourceMeasures).None? ==>
            iteratorState == old(iteratorState) && (sheet != null ==> unchanged(sheet)))
      && (sheet != null && old(sheet.sourceMeasures).Some? ==>
            var measures := old(sheet.sourceMeasures).value;
            && sheet.sourceMeasures == old(sheet.sourceMeasures)
            && sheet.selectionStart == SelectionStartAfterReset(measures, rules, old(sheet.selectionStart))
            && sheet.selectionEnd == SelectionEndAfterReset(measures, rules, old(sheet.selectionEnd))
            && iteratorState == Some(started))
      && TimestampPlaced(manager.enrolledTimestampAtStart(if sheet == null then None else sheet.selectionStart),
                         manager, layout, zoom, rules.defaultColorCursor)
    }

    /**
     * A new cursor in the container it was made for, with the first id of the
     * form cursorImg-n that `documentIds` (the ids in the document) does not hold.
     */
    constructor (documentIds: set<string>)
      ensures elementId !in documentIds
      ensures exists n: nat :: elementId == CursorElementId(n) && forall k :: 0 <= k < n ==> CursorElementId(k) in documentIds
      ensures container == InitialContainer && currentPageNumber == 1
      ensures !hidden && displayed
      ensures width == 0.0 && geometry == None && style == Unstyled && iteratorState == None
    {
      var id, n := UniqueCursorElementId(documentIds);
      elementId := id;
      container := InitialContainer;
      hidden := false;
      currentPageNumber := 1;
      displayed := true;
      width := 0.0;
      geometry := None;
      style := Unstyled;
      iteratorState := None;
    }

    /** Moves the element to page p's container if p is not the recorded page, and records p. */
    method MoveToPage(p: int)
      modifies this`currentPageNumber, this`container
      ensures Anchoring() == Reanchor(old(Anchoring()), p)
    {
      if p != currentPageNumber {
        container := PageContainer(p);
      }
      currentPageNumber := p;
    }

    /**
     * Anchors the cursor to the first page whose last system ends after the
     * iterator's timestamp; returns that page's number, or 1 (changing
     * nothing) when no page does.
     */
    method UpdateCurrentPage(pages: seq<Page>) returns (pageNumber: int)
      requires iteratorState.Some?
      modifies this`currentPageNumber, this`container
      ensures Anchoring() == AnchorByTimestamp(old(Anchoring()), pages, iteratorState.value.currentTimestamp)
      ensures pageNumber == (match OwningPage(pages, iteratorState.value.currentTimestamp)
                             case None => 1
                             case Some(i) => pages[i].pageNumber)
    {
      var t := iteratorState.value.currentTimestamp;
      var i := 0;
      while i < |pages|
        invariant 0 <= i <= |pages|
        invariant forall j :: 0 <= j < i ==> pages[j].lastSystemTimestamp <= t
      {
        if pages[i].lastSystemTimestamp > t {
          OwningPageIs(pages, t, i);
          MoveToPage(pages[i].pageNumber);
          return pages[i].pageNumber;
        }
        i := i + 1;
      }
      return 1;
    }

    /**
     * Anchors the cursor to the page of `system`; returns that page's number,
     * or 1 (changing nothing) when there is no system.
     */
    method UpdateCurrentPageFromSystem(system: Option<System>) returns (pageNumber: int)
      modifies this`currentPageNumber, this`container
      ensures Anchoring() == AnchorBySystem(old(Anchoring()), system)
      ensures pageNumber == (if system.Some? then system.value.pageNumber else 1)
    {
      if system.Some? {
        MoveToPage(system.value.pageNumber);
        return system.value.pageNumber;
      }
      return 1;
    }

    /** Sets the element's geometry and width, remakes the gradient if the width changed, shows it. */
    method Place(x: real, y: real, height: real, zoom: real, color: string)
      modifies this`geometry, this`width, this`style, this`displayed
      ensures PlacedAt(x, y, height, zoom, color)
    {
      geometry := Some(PixelGeometry(x, y, height, zoom));
      var newWidth := CursorWidth(zoom);
      if newWidth != width {
        width := newWidth;
        style := Gradient(newWidth, color);
      }
      displayed := true;
    }

    /**
     * Does nothing while hidden. Otherwise re-anchors by the iterator's
     * timestamp and, when a position resolves, places the element over the
     * system's staff lines at that position; when none resolves, the
     * element keeps its geometry, width, style and display.
     */
    method Update(layout: Layout, zoom: real, rules: Rules)
      requires !hidden ==> iteratorState.Some? && Resolvable(iteratorState.value, layout)
      modifies this`currentPageNumber, this`container, this`geometry, this`width, this`style, this`displayed
      ensures old(hidden) ==> unchanged(this)
      ensures !hidden ==>
        Anchoring() == AnchorByTimestamp(old(Anchoring()), layout.musicPages, iteratorState.value.currentTimestamp)
      ensures !hidden && ResolvePosition(iteratorState.value, layout).None? ==>
        unchanged(this`geometry, this`width, this`style, this`displayed)
      ensures !hidden && ResolvePosition(iteratorState.value, layout).Some? ==>
        var p := ResolvePosition(iteratorState.value, layout).value;
        PlacedAt(p.x, VerticalSpan(p.system).y, VerticalSpan(p.system).height, zoom, rules.defaultColorCursor)
    {
      if hidden {
        return;
      }
      var _ := UpdateCurrentPage(layout.musicPages);
      var position := ResolvePosition(iteratorState.value, layout);
      if position.None? {
        return;
      }
      var span := VerticalSpan(position.value.system);
      Place(position.value.x, span.y, span.height, zoom, rules.defaultColorCursor);
    }

    /** Clears the hidden flag and updates. */
    method Show(layout: Layout, zoom: real, rules: Rules)
      requires iteratorState.Some? && Resolvable(iteratorState.value, layout)
      modifies this`hidden, this`currentPageNumber, this`container, this`geometry, this`width, this`style, this`displayed
      ensures !hidden
      ensures Anchoring() == AnchorByTimestamp(old(Anchoring()), layout.musicPages, iteratorState.value.currentTimestamp)
      ensures ResolvePosition(iteratorState.value, layout).None? ==>
        unchanged(this`geometry, this`width, this`style, this`displayed)
      ensures ResolvePosition(iteratorState.value, layout).Some? ==>
        var p := ResolvePosition(iteratorState.value, layout).value;
        PlacedAt(p.x, VerticalSpan(p.system).y, VerticalSpan(p.system).height, zoom, rules.defaultColorCursor)
    {
      hidden := false;
      Update(layout, zoom, rules);
    }

    /** Hides the element and sets the hidden flag. */
    method Hide()
      modifies this`displayed, this`hidden
      ensures hidden && !displayed
    {
      displayed := false;
      hidden := true;
    }

    /** Takes the iterator to `advanced`, the next visible voice entry, and updates. */
    method Next(advanced: IteratorState, layout: Layout, zoom: real, rules: Rules)
      requires iteratorState.Some?
      requires !hidden ==> Resolvable(advanced, layout)
      modifies this`iteratorState, this`currentPageNumber, this`container, this`geometry, this`width, this`style, this`displayed
      ensures iteratorState == Some(advanced)
      ensures old(hidden) ==> unchanged(this`currentPageNumber, this`container, this`geometry, this`width, this`style, this`displayed)
      ensures !hidden ==>
        Anchoring() == AnchorByTimestamp(old(Anchoring()), layout.musicPages, advanced.currentTimestamp)
      ensures !hidden && ResolvePosition(advanced, layout).None? ==>
        unchanged(this`geometry, this`width, this`style, this`displayed)
      ensures !hidden && ResolvePosition(advanced, layout).Some? ==>
        var p := ResolvePosition(advanced, layout).value;
        PlacedAt(p.x, VerticalSpan(p.system).y, VerticalSpan(p.system).height, zoom, rules.defaultColorCursor)
    {
      iteratorState := Some(advanced);
      Update(layout, zoom, rules);
    }

    /**
     * Places the cursor at an enrolled timestamp from the playback engine:
     * anchors to the page of the timestamp's system, places the element at the
     * layout's cursor points there, and shows it whatever the hidden flag says.
     */
    method UpdateWithTimestamp(t: real, manager: PartManager, layout: Layout, zoom: real, rules: Rules)
      modifies this`currentPageNumber, this`container, this`geometry, this`width, this`style, this`displayed
      ensures hidden == old(hidden)
      ensures TimestampPlaced(t, manager, layout, zoom, rules.defaultColorCursor)
    {
      var sheetTimestamp := manager.enrolledToSheetTimestamp(t);
      var (x, currentSystem) := layout.xPositionFromTimestamp(sheetTimestamp);
      var _ := UpdateCurrentPageFromSystem(currentSystem);
      var (top, bottom) := layout.cursorPoints(x, currentSystem);
      Place(x, top, bottom - top, zoom, rules.defaultColorCursor);
    }

    /**
     * Sets the sheet's selection to the draw range of `rules` and takes the fresh
     * iterator `started`; without a sheet or its measure list it changes nothing.
     */
    method ResetIterator(sheet: MusicSheet?, rules: Rules, started: IteratorState)
      requires sheet != null && sheet.sourceMeasures.Some? ==> |sheet.sourceMeasures.value| > 0
      modifies this`iteratorState, sheet
      ensures sheet == null || old(sheet.sourceMeasures).None? ==>
        iteratorState == old(iteratorState) && (sheet != null ==> unchanged(sheet))
      ensures sheet != null && old(sheet.sourceMeasures).Some? ==>
        var measures := old(sheet.sourceMeasures).value;
        && sheet.sourceMeasures == old(sheet.sourceMeasures)
        && sheet.selectionStart == SelectionStartAfterReset(measures, rules, old(sheet.selectionStart))
        && sheet.selectionEnd == SelectionEndAfterReset(measures, rules, old(sheet.selectionEnd))
        && iteratorState == Some(started)
    {
      if sheet == null || sheet.sourceMeasures.None? {
        return;
      }
      var measures := sheet.sourceMeasures.value;
      sheet.selectionStart := SelectionStartAfterReset(measures, rules, sheet.selectionStart);
      sheet.selectionEnd := SelectionEndAfterReset(measures, rules, sheet.selectionEnd);
      iteratorState := Some(started);
    }

    /**
     * Resets the iterator and the selection, then places the cursor at the
     * enrolled timestamp of an iterator started at the selection start.
     */
    method Reset(sheet: MusicSheet?, rules: Rules, started: IteratorState, manager: PartManager, layout: Layout, zoom: real)
      requires sheet != null && sheet.sourceMeasures.Some? ==> |sheet.sourceMeasures.value| > 0
      modifies this`iteratorState, sheet
      modifies this`currentPageNumber, this`container, this`geometry, this`width, this`style, this`displayed
      ensures hidden == old(hidden)
      ensures ResetDone(sheet, rules, started, manager, layout, zoom)
    {
      ResetIterator(sheet, rules, started);
      var selectionStart := if sheet == null then None else sheet.selectionStart;
      UpdateWithTimestamp(manager.enrolledTimestampAtStart(selectionStart), manager, layout, zoom, rules);
    }

    /** Binds the cursor to a score: resets it, and leaves it not hidden. */
    method Init(sheet: MusicSheet?, rules: Rules, started: IteratorState, manager: PartManager, layout: Layout, zoom: real)
      requires sheet != null && sheet.sourceMeasures.Some? ==> |sheet.sourceMeasures.value| > 0
      modifies this`hidden, this`iteratorState, sheet
      modifies this`currentPageNumber, this`container, this`geometry, this`width, this`style, this`displayed
      ensures !hidden
      ensures ResetDone(sheet, rules, started, manager, layout, zoom)
    {
      Reset(sheet, rules, started, manager, layout, zoom);
      hidden := false;
    }

    /**
     * Playback notifications: a position change places the cursor at the
     * predicted position, a reset resets it, and the others change nothing.
     */
    method OnPlaybackEvent(e: PlaybackEvent, sheet: MusicSheet?, rules: Rules, started: IteratorState,
                           manager: PartManager, layout: Layout, zoom: real)
      requires sheet != null && sheet.sourceMeasures.Some? ==> |sheet.sourceMeasures.value| > 0
      modifies this`iteratorState, sheet
      modifies this`currentPageNumber, this`container, this`geometry, this`width, this`style, this`displayed
      ensures hidden == old(hidden)
      ensures e.PauseOccurred? || e.SelectionEndReached? || e.NotesPlaybackEventOccurred? ==>
        unchanged(this) && (sheet != null ==> unchanged(sheet))
      ensures e.CursorPositionChanged? ==>
        && iteratorState == old(iteratorState)
        && (sheet != null ==> unchanged(sheet))
        && TimestampPlaced(e.predictedPosition, manager, layout, zoom, rules.defaultColorCursor)
      ensures e.ResetOccurred? ==> ResetDone(sheet, rules, started, manager, layout, zoom)
    {
      match e {
        case CursorPositionChanged(position) =>
          UpdateWithTimestamp(position, manager, layout, zoom, rules);
        case ResetOccurred =>
          Reset(sheet, rules, started, manager, layout, zoom);
        case PauseOccurred =>
        case SelectionEndReached =>
        case NotesPlaybackEventOccurred =>
      }
    }

    /** The visible voice entries at the cursor, of one instrument or of all. */
    function VoicesUnderCursor(instrument: Option<Instrument>): (r: seq<VoiceEntry>)
      reads this`iteratorState
      requires iteratorState.Some?
    {
      iteratorState.value.visibleVoiceEntries(instrument)
    }

    /** The notes of the voice entries under the cursor, entry by entry, in order. */
    method NotesUnderCursor(instrument: Option<Instrument>) returns (notes: seq<Note>)
      requires iteratorState.Some?
      ensures notes == Flatten(VoicesUnderCursor(instrument))
    {
      var voiceEntries := VoicesUnderCursor(instrument);
      notes := [];
      for i := 0 to |voiceEntries|
        invariant notes == Flatten(voiceEntries[..i])
      {
        assert voiceEntries[..i + 1][..i] == voiceEntries[..i];
        notes := notes + voiceEntries[i].notes;
      }
      assert voiceEntries[..|voiceEntries|] == voiceEntries;
    }
  }

  /** Playback surfaces a hidden cursor: hide, then a timestamp update, shows it. */
  method HiddenCursorShownByPlayback(c: Cursor, t: real, manager: PartManager, layout: Layout, zoom: real, rules: Rules)
    modifies c
    ensures c.hidden && c.displayed
  {
    c.Hide();
    c.UpdateWithTimestamp(t, manager, layout, zoom, rules);
  }

  /** Stepping does not override a hide: hide, then next, leaves the cursor hidden and not shown. */
  method HiddenCursorStaysHiddenOnNext(c: Cursor, advanced: IteratorState, layout: Layout, zoom: real, rules: Rules)
    requires c.iteratorState.Some?
    modifies c
    ensures c.hidden && !c.displayed
  {
    c.Hide();
    c.Next(advanced, layout, zoom, rules);
  }

  /**
   * Outside a multi-rest, a resolved cursor stands on a voice under the
   * cursor: one of them has the staff entry at the cursor's x in its system,
   * and none of them has a staff entry further left.
   */
  lemma PlacedOnAVoiceUnderCursor(c: Cursor, layout: Layout)
    requires c.iteratorState.Some? && Resolvable(c.iteratorState.value, layout)
    requires !c.iteratorState.value.currentMeasure.isReducedToMultiRest
    requires ResolvePosition(c.iteratorState.value, layout).Some?
    ensures var p := ResolvePosition(c.iteratorState.value, layout).value;
      && (exists v :: v in c.VoicesUnderCursor(None) && layout.staffEntryOf(v) == Some(StaffEntry(p.x, Some(p.system))))
      && (forall v :: v in c.VoicesUnderCursor(None) && layout.staffEntryOf(v).Some? ==> p.x <= layout.staffEntryOf(v).value.absoluteX)
  {
    var vs := c.VoicesUnderCursor(None);
    var p := ResolvePosition(c.iteratorState.value, layout).value;
    var i :| 0 <= i < |vs| && layout.staffEntryOf(vs[i]).Some? &&
      (forall j :: 0 <= j < |vs| && layout.staffEntryOf(vs[j]).Some? ==>
         layout.staffEntryOf(vs[i]).value.absoluteX <= layout.staffEntryOf(vs[j]).value.absoluteX) &&
      layout.staffEntryOf(vs[i]) == Some(StaffEntry(p.x, Some(p.system)));
    assert vs[i] in vs;
    forall v | v in vs && layout.staffEntryOf(v).Some?
      ensures p.x <= layout.staffEntryOf(v).value.absoluteX
    {
      var j :| 0 <= j < |vs| && vs[j] == v;
    }
  }

  /** With no voice under the cursor, the cursor can always be updated and resolves no position. */
  lemma NoVoicesNoPosition(c: Cursor, layout: Layout)
    requires c.iteratorState.Some? && c.VoicesUnderCursor(None) == []
    ensures Resolvable(c.iteratorState.value, layout)
    ensures ResolvePosition(c.iteratorState.value, layout).None?
  {
  }

  /** Re-anchoring twice to the same system changes nothing the second time. */
  method ReanchorTwiceBySystem(c: Cursor, system: System)
    modifies c
    ensures c.currentPageNumber == system.pageNumber
    ensures c.Anchoring() == Reanchor(old(c.Anchoring()), system.pageNumber)
  {
    var _ := c.UpdateCurrentPageFromSystem(Some(system));
    ghost var once := c.Anchoring();
    var _ := c.UpdateCurrentPageFromSystem(Some(system));
    assert c.Anchoring() == once;
  }
}
