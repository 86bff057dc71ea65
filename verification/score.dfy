/**
 * The parts of the score's data model that the cursor reads: voice entries and
 * their notes, the iterator's current position, the source measures and the
 * sheet's selection. Everything the iterator and the part manager compute is
 * supplied to the model as a value (a snapshot or a function).
 */
module Score {
  import opened Wrappers

  /** A note, known to the cursor only by its identity. */
  datatype Note = Note(id: nat)

  /** An instrument, used to filter the voice entries under the cursor. */
  datatype Instrument = Instrument(id: nat)

  /** A voice entry: the notes sounding at one position in one voice. */
  datatype VoiceEntry = VoiceEntry(staffIndex: nat, measureIndex: nat, notes: seq<Note>)

  /** The measure the iterator stands in, with its multi-rest metadata. */
  datatype MeasureInfo = MeasureInfo(index: nat, isReducedToMultiRest: bool, multipleRestMeasureNumber: nat)

  /**
   * A snapshot of the music-part iterator at its current position.
   * `visibleVoiceEntries(None)` lists every visible voice entry,
   * `visibleVoiceEntries(Some(i))` those of instrument `i`.
   */
  datatype IteratorState = IteratorState(
    currentTimestamp: real,
    endReached: bool,
    hasCurrentVoiceEntries: bool,
    visibleVoiceEntries: Option<Instrument> -> seq<VoiceEntry>,
    currentMeasure: MeasureInfo)

  /**
   * The answers of the part manager: the translation of an enrolled (playback)
   * timestamp into a sheet timestamp, and the enrolled timestamp of a fresh
   * iterator started at a given selection start.
   */
  datatype PartManager = PartManager(
    enrolledToSheetTimestamp: real -> real,
    enrolledTimestampAtStart: Option<real> -> real)

  /** A measure of the data model: where it starts and how long it lasts. */
  datatype SourceMeasure = SourceMeasure(absoluteTimestamp: real, duration: real)

  /** The loaded sheet, whose selection the cursor adjusts when it resets. */
  class MusicSheet {
    var sourceMeasures: Option<seq<SourceMeasure>>
    var selectionStart: Option<real>
    var selectionEnd: Option<real>

    constructor (measures: Option<seq<SourceMeasure>>)
      ensures sourceMeasures == measures && selectionStart == None && selectionEnd == None
    {
      sourceMeasures := measures;
      selectionStart := None;
      selectionEnd := None;
    }
  }

  /** The notes of `entries`, entry by entry, each entry's notes in order. */
  function Flatten(entries: seq<VoiceEntry>): seq<Note>
  {
    if |entries| == 0 then [] else Flatten(entries[..|entries| - 1]) + entries[|entries| - 1].notes
  }

  /** Flattening distributes over concatenation of the entry lists. */
  lemma {:induction false} FlattenAppend(a: seq<VoiceEntry>, b: seq<VoiceEntry>)
    ensures Flatten(a + b) == Flatten(a) + Flatten(b)
    decreases |b|
  {
    if |b| == 0 {
      assert a + b == a;
    } else {
      var b' := b[..|b| - 1];
      assert (a + b)[..|a + b| - 1] == a + b';
      FlattenAppend(a, b');
    }
  }

  /** The flattened list holds exactly the notes of the entries' note lists. */
  lemma {:induction false} FlattenMembership(entries: seq<VoiceEntry>, n: Note)
    ensures n in Flatten(entries) <==> exists i :: 0 <= i < |entries| && n in entries[i].notes
    decreases |entries|
  {
    if |entries| > 0 {
      var init := entries[..|entries| - 1];
      FlattenMembership(init, n);
      if n in Flatten(entries) && n !in entries[|entries| - 1].notes {
        var i :| 0 <= i < |init| && n in init[i].notes;
        assert n in entries[i].notes;
      }
      if exists i :: 0 <= i < |entries| && n in entries[i].notes {
        var i :| 0 <= i < |entries| && n in entries[i].notes;
        if i < |init| {
          assert n in init[i].notes;
        }
      }
    }
  }

  /** The flattened list is as long as all note lists together. */
  function NoteCount(entries: seq<VoiceEntry>): nat
  {
    if |entries| == 0 then 0 else NoteCount(entries[..|entries| - 1]) + |entries[|entries| - 1].notes|
  }

  lemma {:induction false} FlattenLength(entries: seq<VoiceEntry>)
    ensures |Flatten(entries)| == NoteCount(entries)
    decreases |entries|
  {
    if |entries| > 0 {
      FlattenLength(entries[..|entries| - 1]);
    }
  }
}
