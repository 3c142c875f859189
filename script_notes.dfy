/** The value-level part of script.js, the simpler editor: notes are stored in
    beats on a twelve-row grid. Geometry, the hit test, the edits the pointer
    handlers apply to one note, the length of the piece in beats and the
    playback schedule. */
module ScriptNotes {
  import opened Common

  const Pitches: int := 12
  const CellWidth: real := 40.0          // pixels per beat
  /** `canvas.height / PITCHES` for the page's 360-pixel canvas. */
  const CellHeight: real := 30.0
  const CanvasHeight: real := 360.0
  const DefaultVelocity: real := 0.8
  /** `secPerBeat` starts at 0.5 (120 beats per minute) and is never assigned again. */
  const SecPerBeat: real := 0.5
  const MinDuration: real := 0.1
  /** A press this close to a note's right edge grabs its resize handle. */
  const ResizeMargin: real := 5.0
  /** Row pitch 0 sounds as MIDI note 60. */
  const BaseMidi: int := 60

  datatype Note = Note(id: nat, start: real, pitch: int, duration: real, velocity: real)

  /** One oscillator: start and stop on the audio clock, the MIDI pitch and the gain. */
  datatype Tone = Tone(start: real, stop: real, midi: int, gain: real)

  // ---------------------------------------------------------------- geometry

  /** The row under `y`, counted from the top and clamped to the grid. */
  function YToPitch(y: real): (p: int)
    ensures 0 <= p < Pitches
    ensures 0.0 <= y < CanvasHeight ==> p as real * CellHeight <= y < p as real * CellHeight + CellHeight
    ensures y < 0.0 ==> p == 0
    ensures y >= (Pitches - 1) as real * CellHeight ==> p == Pitches - 1
  {
    var row := (y / CellHeight).Floor;
    if row < 0 then 0 else if row > Pitches - 1 then Pitches - 1 else row
  }

  function XToBeat(x: real): (b: real)
    ensures b * CellWidth == x
  {
    x / CellWidth
  }

  /** The top edge of the row where drawing and the hit test put `pitch`:
      pitch 0 is the bottom row. */
  function RowTop(pitch: int): (r: real)
    ensures 0 <= pitch < Pitches <==> 0.0 <= r < CanvasHeight
    ensures 0 <= pitch < Pitches ==> YToPitch(r) == Pitches - 1 - pitch
  {
    (Pitches - 1 - pitch) as real * CellHeight
  }

  /** The box of `n` on the canvas, edges included. */
  predicate Contains(n: Note, x: real, y: real)
  {
    && n.start * CellWidth <= x <= n.start * CellWidth + n.duration * CellWidth
    && RowTop(n.pitch) <= y <= RowTop(n.pitch) + CellHeight
  }

  /** `i` is the first note, in list order, whose box holds the point. */
  predicate FirstHit(notes: seq<Note>, x: real, y: real, i: nat)
  {
    && i < |notes|
    && Contains(notes[i], x, y)
    && forall j :: 0 <= j < i ==> !Contains(notes[j], x, y)
  }

  predicate NoHit(notes: seq<Note>, x: real, y: real)
  {
    forall j :: 0 <= j < |notes| ==> !Contains(notes[j], x, y)
  }

  /** At most one note is the first hit. */
  lemma FirstHitUnique(notes: seq<Note>, x: real, y: real, i: nat, k: nat)
    requires FirstHit(notes, x, y, i) && FirstHit(notes, x, y, k)
    ensures i == k
  {
  }

  /** `getNoteAt`: the loop over the notes that returns the first hit. */
  method NoteAt(notes: seq<Note>, x: real, y: real) returns (r: Option<nat>)
    ensures r.Some? ==> FirstHit(notes, x, y, r.value)
    ensures r.None? <==> NoHit(notes, x, y)
  {
    var i := 0;
    while i < |notes|
      invariant 0 <= i <= |notes|
      invariant forall j :: 0 <= j < i ==> !Contains(notes[j], x, y)
    {
      if Contains(notes[i], x, y) {
        return Some(i);
      }
      i := i + 1;
    }
    return None;
  }

  /** A press on empty space in row `r` (from the top) creates a note of pitch
      `r`, which is drawn in row 11 - r. Its box holds the press point only on
      the one line y = 180 where rows 5 and 6 meet. */
  lemma {:induction false} NewNoteRowMismatch(y: real)
    requires 0.0 <= y < CanvasHeight
    ensures RowTop(YToPitch(y)) <= y <= RowTop(YToPitch(y)) + CellHeight <==> y == 180.0
  {
  }

  // ---------------------------------------------------------------- identity

  /** JavaScript compares notes by object identity; each note here carries an id. */
  predicate DistinctIds(notes: seq<Note>)
  {
    forall i, j :: 0 <= i < j < |notes| ==> notes[i].id != notes[j].id
  }

  predicate IdsBelow(notes: seq<Note>, bound: nat)
  {
    forall i :: 0 <= i < |notes| ==> notes[i].id < bound
  }

  predicate HasId(notes: seq<Note>, id: nat)
  {
    exists j :: 0 <= j < |notes| && notes[j].id == id
  }

  /** Where the note object with identity `id` sits in the list. */
  function IndexOf(notes: seq<Note>, id: nat): (r: Option<nat>)
    ensures r.Some? ==> r.value < |notes| && notes[r.value].id == id
    ensures r.None? <==> forall j :: 0 <= j < |notes| ==> notes[j].id != id
  {
    if notes == [] then None
    else if notes[0].id == id then Some(0)
    else
      match IndexOf(notes[1..], id)
      case None => None
      case Some(k) => Some(k + 1)
  }

  /** The grid invariant the handlers keep: pitches are rows, durations are at
      least the minimum. */
  predicate OnGrid(n: Note)
  {
    0 <= n.pitch < Pitches && n.duration >= MinDuration
  }

  predicate AllOnGrid(notes: seq<Note>)
  {
    forall i :: 0 <= i < |notes| ==> OnGrid(notes[i])
  }

  /** `notes.push(n)` of an on-grid note with a fresh identity. */
  lemma AppendIds(notes: seq<Note>, n: Note, bound: nat)
    requires DistinctIds(notes) && IdsBelow(notes, bound) && n.id == bound
    ensures DistinctIds(notes + [n]) && IdsBelow(notes + [n], bound + 1)
    ensures forall id :: HasId(notes + [n], id) <==> HasId(notes, id) || id == n.id
    ensures AllOnGrid(notes) && OnGrid(n) ==> AllOnGrid(notes + [n])
  {
    var r := notes + [n];
    assert r[|notes|].id == n.id;
    forall id | HasId(notes, id) ensures HasId(r, id) {
      var k :| 0 <= k < |notes| && notes[k].id == id;
      assert r[k].id == id;
    }
  }

  /** Assigning fields of a note object other than its identity. */
  lemma ReplaceIds(notes: seq<Note>, i: nat, m: Note, bound: nat)
    requires i < |notes| && m.id == notes[i].id
    requires DistinctIds(notes) && IdsBelow(notes, bound)
    ensures DistinctIds(notes[i := m]) && IdsBelow(notes[i := m], bound)
    ensures forall id :: HasId(notes[i := m], id) <==> HasId(notes, id)
    ensures AllOnGrid(notes) && OnGrid(m) ==> AllOnGrid(notes[i := m])
  {
    var r := notes[i := m];
    assert forall j :: 0 <= j < |notes| ==> r[j].id == notes[j].id;
    forall id | HasId(notes, id) ensures HasId(r, id) {
      var k :| 0 <= k < |notes| && notes[k].id == id;
      assert r[k].id == id;
    }
  }

  /** Removing a note from a list with distinct ids removes exactly its id. */
  lemma {:induction false} RemoveAtIds(notes: seq<Note>, i: nat, bound: nat)
    requires i < |notes| && DistinctIds(notes) && IdsBelow(notes, bound)
    ensures DistinctIds(RemoveAt(notes, i)) && IdsBelow(RemoveAt(notes, i), bound)
    ensures forall id :: HasId(RemoveAt(notes, i), id) <==> HasId(notes, id) && id != notes[i].id
    ensures AllOnGrid(notes) ==> AllOnGrid(RemoveAt(notes, i))
  {
    var r := RemoveAt(notes, i);
    forall id
      ensures HasId(r, id) <==> HasId(notes, id) && id != notes[i].id
    {
      if HasId(notes, id) && id != notes[i].id {
        var k :| 0 <= k < |notes| && notes[k].id == id;
        assert r[if k < i then k else k - 1].id == id;
      }
    }
  }

  // ---------------------------------------------------------------- edits

  /** The note a press on empty space creates: it starts at the pointer, has
      the minimum duration, the slider's velocity and the pitch of the row
      under the pointer counted from the top. */
  function NewNote(id: nat, x: real, y: real, velocity: real): (n: Note)
    ensures n.id == id && n.duration == MinDuration && n.velocity == velocity
    ensures n.start * CellWidth == x
    ensures OnGrid(n)
    ensures 0.0 <= y < CanvasHeight ==> n.pitch as real * CellHeight <= y < n.pitch as real * CellHeight + CellHeight
  {
    Note(id, XToBeat(x), YToPitch(y), MinDuration, velocity)
  }

  /** A drag in 'new' or 'resize' mode: the end follows the pointer, but the
      duration never drops below the minimum. */
  function Resized(n: Note, x: real): (r: Note)
    ensures r.id == n.id && r.start == n.start && r.pitch == n.pitch && r.velocity == n.velocity
    ensures r.duration >= MinDuration
    ensures XToBeat(x) - n.start >= MinDuration ==> (r.start + r.duration) * CellWidth == x
    ensures XToBeat(x) - n.start < MinDuration ==> r.duration == MinDuration
  {
    n.(duration := Max(MinDuration, XToBeat(x) - n.start))
  }

  /** A drag in 'move' mode: the note's origin follows the pointer minus the
      press offsets, never left of beat 0 and always on a row of the grid. */
  function Moved(n: Note, x: real, y: real, offsetX: real, offsetY: real): (r: Note)
    ensures r.id == n.id && r.duration == n.duration && r.velocity == n.velocity
    ensures r.start >= 0.0
    ensures x - offsetX >= 0.0 ==> r.start * CellWidth == x - offsetX
    ensures x - offsetX < 0.0 ==> r.start == 0.0
    ensures 0 <= r.pitch < Pitches
    ensures 0.0 <= y - offsetY < CanvasHeight ==>
              r.pitch as real * CellHeight <= y - offsetY < r.pitch as real * CellHeight + CellHeight
    ensures y - offsetY < 0.0 ==> r.pitch == 0
    ensures y - offsetY >= (Pitches - 1) as real * CellHeight ==> r.pitch == Pitches - 1
  {
    n.(start := Max(0.0, XToBeat(x - offsetX)), pitch := YToPitch(y - offsetY))
  }

  /** A move with the pointer where the press grabbed the note rewrites its
      pitch p as 11 - p: the offsets are measured against the drawn row, but
      the row is read back as a pitch counted from the top. */
  lemma {:induction false} MoveInPlaceFlipsPitch(n: Note, px: real, py: real)
    requires OnGrid(n) && n.start >= 0.0
    ensures Moved(n, px, py, px - n.start * CellWidth, py - RowTop(n.pitch)).pitch == Pitches - 1 - n.pitch
    ensures Moved(n, px, py, px - n.start * CellWidth, py - RowTop(n.pitch)).pitch != n.pitch
    ensures Moved(n, px, py, px - n.start * CellWidth, py - RowTop(n.pitch)).start == n.start
  {
  }

  // ---------------------------------------------------------------- playback

  /** Where a note ends, in beats. */
  function End(n: Note): real
  {
    n.start + n.duration
  }

  /** `notes.reduce((max, n) => Math.max(max, n.start + n.duration), 0)`: the
      latest end of any note, and 0 when there is none before beat 0. */
  function TotalBeats(notes: seq<Note>): (t: real)
    ensures t >= 0.0
    ensures forall i :: 0 <= i < |notes| ==> End(notes[i]) <= t
    ensures t == 0.0 || exists i :: 0 <= i < |notes| && End(notes[i]) == t
  {
    if notes == [] then 0.0
    else
      var front := notes[..|notes| - 1];
      assert forall i :: 0 <= i < |front| ==> front[i] == notes[i];
      Max(TotalBeats(front), End(notes[|notes| - 1]))
  }

  /** The oscillator `play` starts for `n` when playback starts at `startTime`. */
  function ToneFor(n: Note, startTime: real, velocityOn: bool): (t: Tone)
    ensures (t.start - startTime) / SecPerBeat == n.start
    ensures (t.stop - startTime) / SecPerBeat == End(n)
    ensures t.midi - BaseMidi == n.pitch
    ensures 0 <= n.pitch < Pitches ==> BaseMidi <= t.midi < BaseMidi + Pitches
    ensures velocityOn ==> t.gain == n.velocity
    ensures !velocityOn ==> t.gain == DefaultVelocity
  {
    var when := startTime + n.start * SecPerBeat;
    Tone(when, when + n.duration * SecPerBeat, BaseMidi + n.pitch,
         if velocityOn then n.velocity else DefaultVelocity)
  }

  /** The scheduling loop of `play`: one tone per note, in list order, each
      ending by the time the playhead reaches `TotalBeats`. */
  method ScheduleTones(notes: seq<Note>, startTime: real, velocityOn: bool) returns (tones: seq<Tone>)
    ensures |tones| == |notes|
    ensures forall i :: 0 <= i < |notes| ==> tones[i] == ToneFor(notes[i], startTime, velocityOn)
    ensures forall i :: 0 <= i < |tones| ==> tones[i].stop <= startTime + TotalBeats(notes) * SecPerBeat
  {
    tones := [];
    for i := 0 to |notes|
      invariant |tones| == i
      invariant forall k :: 0 <= k < i ==> tones[k] == ToneFor(notes[k], startTime, velocityOn)
    {
      tones := tones + [ToneFor(notes[i], startTime, velocityOn)];
    }
  }

  /** The step loop's stop test `elapsed / secPerBeat >= totalBeats` holds at
      clock reading `now` exactly when every scheduled tone has stopped. */
  lemma {:induction false} StopTestMeansAllTonesDone(notes: seq<Note>, startTime: real, now: real, velocityOn: bool)
    requires now >= startTime
    ensures (now - startTime) / SecPerBeat >= TotalBeats(notes)
            <==> forall i :: 0 <= i < |notes| ==> ToneFor(notes[i], startTime, velocityOn).stop <= now
  {
  }
}
