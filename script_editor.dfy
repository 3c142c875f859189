/** The global state of script.js and its event handlers. The note list, the
    gesture in progress, the selection, the velocity slider's value, the
    transport and the playhead line on the canvas are fields of one `Editor`;
    each handler is a method. Pointer coordinates, the velocity checkbox and
    readings of the audio clock come in as parameters. */
module ScriptEditor {
  import opened Common
  import opened ScriptNotes

  class Editor {
    var notes: seq<Note>
    var nextId: nat                // identity for the next note object
    var isDrawing: bool
    var dragType: Mode
    var selected: Option<nat>      // `selectedNote`, by identity
    var offsetX: real
    var offsetY: real
    var sliderValue: real          // `velocitySlider.value`
    var audioOpen: bool            // `audioCtx` is not null
    var isPlaying: bool
    var startTime: real
    var totalBeats: real           // the length `play` computed, read by `step`
    var frameArmed: bool           // a `step` frame is requested and not cancelled
    var playhead: Option<real>     // the red line the last `drawGrid` painted, if any

    /** Everything the handlers keep true except that the selection is in the list. */
    ghost predicate ValidNotes()
      reads this
    {
      DistinctIds(notes) && IdsBelow(notes, nextId) && AllOnGrid(notes)
    }

    ghost predicate Valid()
      reads this
    {
      ValidNotes() && (selected.Some? ==> HasId(notes, selected.value))
    }

    /** The pointer gesture: `isDrawing`, `dragType` and the move offsets. */
    ghost function Gesture(): (bool, Mode, real, real)
      reads this
    {
      (isDrawing, dragType, offsetX, offsetY)
    }

    /** The transport globals and the frame request. */
    ghost function Transport(): (bool, bool, real, real, bool)
      reads this
    {
      (audioOpen, isPlaying, startTime, totalBeats, frameArmed)
    }

    /** The page load: no notes, nothing selected or playing, the grid drawn
        without a playhead; `slider` is the slider's initial value. */
    constructor (slider: real)
      ensures Valid()
      ensures notes == [] && selected == None && !isDrawing && dragType == Idle
      ensures offsetX == 0.0 && offsetY == 0.0 && sliderValue == slider
      ensures !audioOpen && !isPlaying && !frameArmed && playhead == None
    {
      notes := [];
      nextId := 0;
      isDrawing := false;
      dragType := Idle;
      selected := None;
      offsetX := 0.0;
      offsetY := 0.0;
      sliderValue := slider;
      audioOpen := false;
      isPlaying := false;
      startTime := 0.0;
      totalBeats := 0.0;
      frameArmed := false;
      playhead := None;
    }

    /** `mousedown`: grab the first note under the pointer or create one, show
        its velocity on the slider and start drawing. */
    method MouseDown(x: real, y: real)
      requires Valid()
      modifies this
      ensures Valid()
      ensures isDrawing && playhead == None && Transport() == old(Transport())
      ensures forall i: nat :: FirstHit(old(notes), x, y, i) ==>
                var n := old(notes)[i];
                && notes == old(notes) && nextId == old(nextId)
                && selected == Some(n.id) && sliderValue == n.velocity
                && (dragType == Resize <==> x > n.start * CellWidth + n.duration * CellWidth - ResizeMargin)
                && (dragType == Resize ==> offsetX == old(offsetX) && offsetY == old(offsetY))
                && (dragType != Resize ==>
                      dragType == Move && offsetX == x - n.start * CellWidth && offsetY == y - RowTop(n.pitch))
      ensures NoHit(old(notes), x, y) ==>
                && notes == old(notes) + [NewNote(old(nextId), x, y, old(sliderValue))]
                && nextId == old(nextId) + 1
                && selected == Some(old(nextId)) && dragType == New
                && sliderValue == old(sliderValue)
                && offsetX == old(offsetX) && offsetY == old(offsetY)
    {
      var hit := NoteAt(notes, x, y);
      if hit.Some? {
        GrabNote(hit.value, x, y);
        forall i | FirstHit(old(notes), x, y, i) ensures i == hit.value {
          FirstHitUnique(old(notes), x, y, i, hit.value);
        }
      } else {
        CreateNote(x, y);
      }
      isDrawing := true;
      playhead := None;
    }

    /** The hit branch of `mousedown`: select the note, then enter 'resize'
        within the margin of its right edge and 'move' elsewhere. */
    method GrabNote(i: nat, x: real, y: real)
      requires Valid() && i < |notes|
      modifies this
      ensures Valid()
      ensures notes == old(notes) && nextId == old(nextId)
      ensures isDrawing == old(isDrawing) && Transport() == old(Transport()) && playhead == old(playhead)
      ensures selected == Some(notes[i].id) && sliderValue == notes[i].velocity
      ensures dragType == Resize <==> x > notes[i].start * CellWidth + notes[i].duration * CellWidth - ResizeMargin
      ensures dragType == Resize ==> offsetX == old(offsetX) && offsetY == old(offsetY)
      ensures dragType != Resize ==>
                dragType == Move && offsetX == x - notes[i].start * CellWidth && offsetY == y - RowTop(notes[i].pitch)
    {
      var n := notes[i];
      assert HasId(notes, n.id) by { assert notes[i].id == n.id; }
      selected := Some(n.id);
      var noteX := n.start * CellWidth;
      var noteW := n.duration * CellWidth;
      if x > noteX + noteW - ResizeMargin {
        dragType := Resize;
      } else {
        dragType := Move;
        offsetX := x - noteX;
        offsetY := y - RowTop(n.pitch);
      }
      sliderValue := n.velocity;
    }

    /** The miss branch of `mousedown`: append a note with the slider's
        velocity, select it and enter 'new'. */
    method CreateNote(x: real, y: real)
      requires Valid()
      modifies this
      ensures Valid()
      ensures notes == old(notes) + [NewNote(old(nextId), x, y, old(sliderValue))]
      ensures nextId == old(nextId) + 1
      ensures selected == Some(old(nextId)) && dragType == New && sliderValue == old(sliderValue)
      ensures offsetX == old(offsetX) && offsetY == old(offsetY)
      ensures isDrawing == old(isDrawing) && Transport() == old(Transport()) && playhead == old(playhead)
    {
      dragType := New;
      var n := NewNote(nextId, x, y, sliderValue);
      AppendIds(notes, n, nextId);
      notes := notes + [n];
      nextId := nextId + 1;
      selected := Some(n.id);
      sliderValue := n.velocity;
    }

    /** `mousemove`: while drawing, drag the selected note's end ('new',
        'resize') or the whole note ('move'), then repaint. The pointer-down
        handler always selects a note before drawing starts, so a drag with
        nothing selected, on which the source would throw, is a no-op here. */
    method MouseMove(x: real, y: real)
      requires Valid()
      modifies this
      ensures Valid()
      ensures nextId == old(nextId) && selected == old(selected) && sliderValue == old(sliderValue)
      ensures Gesture() == old(Gesture()) && Transport() == old(Transport())
      ensures !isDrawing ==> notes == old(notes) && playhead == old(playhead)
      ensures isDrawing ==> playhead == None
      ensures !isDrawing || selected.None? || dragType == Idle ==> notes == old(notes)
      ensures isDrawing && selected.Some? ==>
                IndexOf(old(notes), selected.value).Some?
                && var i := IndexOf(old(notes), selected.value).value;
                   var n := old(notes)[i];
                   && (dragType == New || dragType == Resize ==> notes == old(notes)[i := Resized(n, x)])
                   && (dragType == Move ==> notes == old(notes)[i := Moved(n, x, y, offsetX, offsetY)])
    {
      if !isDrawing {
        return;
      }
      if selected.Some? {
        var i := IndexOf(notes, selected.value).value;
        var n := notes[i];
        if dragType == New || dragType == Resize {
          ReplaceIds(notes, i, Resized(n, x), nextId);
          notes := notes[i := Resized(n, x)];
        } else if dragType == Move {
          ReplaceIds(notes, i, Moved(n, x, y, offsetX, offsetY), nextId);
          notes := notes[i := Moved(n, x, y, offsetX, offsetY)];
        }
      }
      playhead := None;
    }

    /** `mouseup`: stop drawing; the notes and the selection stay. */
    method MouseUp()
      requires Valid()
      modifies this
      ensures Valid()
      ensures !isDrawing && dragType == Idle
      ensures offsetX == old(offsetX) && offsetY == old(offsetY)
      ensures notes == old(notes) && nextId == old(nextId) && selected == old(selected)
      ensures sliderValue == old(sliderValue) && Transport() == old(Transport()) && playhead == old(playhead)
    {
      isDrawing := false;
      dragType := Idle;
    }

    /** `dblclick`: delete the first note under the pointer, clearing the
        selection if it was that note. */
    method DoubleClick(x: real, y: real)
      requires Valid()
      modifies this
      ensures Valid()
      ensures nextId == old(nextId) && sliderValue == old(sliderValue)
      ensures Gesture() == old(Gesture()) && Transport() == old(Transport())
      ensures NoHit(old(notes), x, y) ==>
                notes == old(notes) && selected == old(selected) && playhead == old(playhead)
      ensures forall i: nat :: FirstHit(old(notes), x, y, i) ==>
                && notes == RemoveAt(old(notes), i)
                && !HasId(notes, old(notes)[i].id)
                && selected == (if old(selected) == Some(old(notes)[i].id) then None else old(selected))
                && playhead == None
    {
      var hit := NoteAt(notes, x, y);
      if hit.Some? {
        var i := hit.value;
        forall k | FirstHit(old(notes), x, y, k) ensures k == i {
          FirstHitUnique(old(notes), x, y, k, i);
        }
        var id := notes[i].id;
        RemoveAtIds(notes, i, nextId);
        notes := RemoveAt(notes, i);
        if selected == Some(id) {
          selected := None;
        }
        playhead := None;
      }
    }

    /** The velocity slider's `input` with the slider at `value`: the selected
        note, if any, takes it. */
    method VelocityInput(value: real)
      requires Valid()
      modifies this
      ensures Valid()
      ensures sliderValue == value
      ensures nextId == old(nextId) && selected == old(selected)
      ensures Gesture() == old(Gesture()) && Transport() == old(Transport())
      ensures selected.None? ==> notes == old(notes) && playhead == old(playhead)
      ensures selected.Some? ==>
                IndexOf(old(notes), selected.value).Some?
                && (var i := IndexOf(old(notes), selected.value).value;
                    notes == old(notes)[i := old(notes)[i].(velocity := value)])
                && playhead == None
    {
      sliderValue := value;
      if selected.Some? {
        var i := IndexOf(notes, selected.value).value;
        ReplaceIds(notes, i, notes[i].(velocity := value), nextId);
        notes := notes[i := notes[i].(velocity := value)];
        playhead := None;
      }
    }

    /** `play` at audio-clock reading `now`: open the audio context, compute the
        piece's length, schedule one tone per note and run the first `step`.
        A piece that ends at beat 0 (no notes) stops again at once. */
    method Play(now: real, velocityOn: bool) returns (tones: seq<Tone>)
      requires Valid()
      modifies this
      ensures Valid()
      ensures audioOpen && startTime == now && totalBeats == TotalBeats(notes)
      ensures |tones| == |notes|
      ensures forall i :: 0 <= i < |notes| ==> tones[i] == ToneFor(notes[i], now, velocityOn)
      ensures forall i :: 0 <= i < |tones| ==> tones[i].stop <= now + totalBeats * SecPerBeat
      ensures isPlaying == (totalBeats > 0.0) && frameArmed == (totalBeats > 0.0)
      ensures totalBeats > 0.0 ==> playhead == Some(0.0)
      ensures totalBeats == 0.0 ==> playhead == None
      ensures notes == old(notes) && nextId == old(nextId) && selected == old(selected)
      ensures sliderValue == old(sliderValue) && Gesture() == old(Gesture())
    {
      audioOpen := true;
      isPlaying := true;
      startTime := now;
      totalBeats := TotalBeats(notes);
      tones := ScheduleTones(notes, now, velocityOn);
      Step(now);
    }

    /** `step` at audio-clock reading `now`: paint the playhead at the elapsed
        beats, then stop once they reach the piece's length or request the next
        frame. */
    method Step(now: real)
      requires Valid()
      modifies this
      ensures Valid()
      ensures (now - startTime) / SecPerBeat >= totalBeats ==>
                !isPlaying && !frameArmed && playhead == None
      ensures (now - startTime) / SecPerBeat < totalBeats ==>
                isPlaying == old(isPlaying) && frameArmed
                && playhead == Some((now - startTime) / SecPerBeat * CellWidth)
      ensures audioOpen == old(audioOpen) && startTime == old(startTime) && totalBeats == old(totalBeats)
      ensures notes == old(notes) && nextId == old(nextId) && selected == old(selected)
      ensures sliderValue == old(sliderValue) && Gesture() == old(Gesture())
    {
      var elapsed := now - startTime;
      playhead := Some(elapsed / SecPerBeat * CellWidth);
      if elapsed / SecPerBeat >= totalBeats {
        Stop();
      } else {
        frameArmed := true;
      }
    }

    /** The animation frame the last `step` requested fires at `now`. */
    method Frame(now: real)
      requires Valid() && frameArmed
      modifies this
      ensures Valid()
      ensures (now - startTime) / SecPerBeat >= totalBeats ==>
                !isPlaying && !frameArmed && playhead == None
      ensures (now - startTime) / SecPerBeat < totalBeats ==>
                isPlaying == old(isPlaying) && frameArmed
                && playhead == Some((now - startTime) / SecPerBeat * CellWidth)
      ensures audioOpen == old(audioOpen) && startTime == old(startTime) && totalBeats == old(totalBeats)
      ensures notes == old(notes) && nextId == old(nextId) && selected == old(selected)
      ensures sliderValue == old(sliderValue) && Gesture() == old(Gesture())
    {
      frameArmed := false;
      Step(now);
    }

    /** `stop`: clear the playing flag, cancel the frame request and repaint
        without a playhead. Tones already scheduled are not cancelled and the
        audio context stays open. On a stopped editor it changes nothing. */
    method Stop()
      requires Valid()
      modifies this
      ensures Valid()
      ensures !isPlaying && !frameArmed && playhead == None
      ensures audioOpen == old(audioOpen) && startTime == old(startTime) && totalBeats == old(totalBeats)
      ensures !old(isPlaying) && !old(frameArmed) && old(playhead) == None ==>
                Transport() == old(Transport()) && playhead == old(playhead)
      ensures notes == old(notes) && nextId == old(nextId) && selected == old(selected)
      ensures sliderValue == old(sliderValue) && Gesture() == old(Gesture())
    {
      isPlaying := false;
      frameArmed := false;
      playhead := None;
    }

    /** The play button: stop when playing, otherwise play. */
    method PlayButton(now: real, velocityOn: bool) returns (tones: seq<Tone>)
      requires Valid()
      modifies this
      ensures Valid()
      ensures old(isPlaying) ==> tones == [] && !isPlaying && !frameArmed && playhead == None
      ensures old(isPlaying) ==>
                startTime == old(startTime) && totalBeats == old(totalBeats) && audioOpen == old(audioOpen)
      ensures !old(isPlaying) ==>
                && |tones| == |notes| && startTime == now && totalBeats == TotalBeats(notes)
                && (forall i :: 0 <= i < |notes| ==> tones[i] == ToneFor(notes[i], now, velocityOn))
                && (forall i :: 0 <= i < |tones| ==> tones[i].stop <= now + totalBeats * SecPerBeat)
                && audioOpen
                && isPlaying == (totalBeats > 0.0) && frameArmed == (totalBeats > 0.0)
                && (totalBeats > 0.0 ==> playhead == Some(0.0))
                && (totalBeats == 0.0 ==> playhead == None)
      ensures notes == old(notes) && nextId == old(nextId) && selected == old(selected)
      ensures sliderValue == old(sliderValue) && Gesture() == old(Gesture())
    {
      if isPlaying {
        Stop();
        tones := [];
      } else {
        tones := Play(now, velocityOn);
      }
    }
  }
}
