/** The global state of app.js and its event handlers. The note list, the
    gesture in progress, the selection, the beat width the notes are drawn at,
    the transport and the preview are fields of one `Editor`; each handler is a
    method. Pointer coordinates, checkbox states, slider values, the tempo and
    readings of the audio clock come in as parameters. */
module AppEditor {
  import opened Common
  import opened AppNotes

  class Editor {
    var notes: seq<Note>
    var nextId: nat                // identity for the next note object
    var current: Option<nat>       // `currentNote`, by identity
    var selected: Option<nat>      // `selectedNote`, by identity
    var mode: Mode
    var dragOffsetX: real
    var dragOffsetY: real
    var currentBeatWidth: real
    var playheadX: real
    var isPlaying: bool
    var audioOpen: bool            // `audioCtx` is not null
    var playStartTime: real
    var timerArmed: bool           // `playbackTimer` is not null
    var timerDelay: real           // the auto-stop delay, in milliseconds
    var frameArmed: bool           // `playheadRAF` is not null
    var preview: AuditionState     // `auditionCtx` / `auditionOsc`

    /** Everything the handlers keep true except that the selection is in the list. */
    ghost predicate ValidNotes()
      reads this
    {
      && currentBeatWidth > 0.0
      && DistinctIds(notes)
      && IdsBelow(notes, nextId)
      && (forall i :: 0 <= i < |notes| ==> notes[i].width > 0.0)
      && AuditionOk(preview)
    }

    ghost predicate Valid()
      reads this
    {
      ValidNotes() && (selected.Some? ==> HasId(notes, selected.value))
    }

    /** The pointer gesture: `currentNote`, `mode` and the drag offsets. */
    ghost function Gesture(): (Option<nat>, Mode, real, real)
      reads this
    {
      (current, mode, dragOffsetX, dragOffsetY)
    }

    /** The transport globals other than the playhead. */
    ghost function Transport(): (bool, bool, real, bool, real, bool)
      reads this
    {
      (isPlaying, audioOpen, playStartTime, timerArmed, timerDelay, frameArmed)
    }

    /** The page load: no notes, nothing selected or playing, the beat width of
        the tempo slider's initial value. */
    constructor (tempo: int)
      requires tempo > 0
      ensures Valid()
      ensures notes == [] && current == None && selected == None && mode == Idle
      ensures currentBeatWidth == BeatWidth(tempo) && playheadX == 0.0
      ensures !isPlaying && !audioOpen && !timerArmed && !frameArmed
      ensures preview.live == None
    {
      notes := [];
      nextId := 0;
      current := None;
      selected := None;
      mode := Idle;
      dragOffsetX := 0.0;
      dragOffsetY := 0.0;
      currentBeatWidth := BeatWidth(tempo);
      playheadX := 0.0;
      isPlaying := false;
      audioOpen := false;
      playStartTime := 0.0;
      timerArmed := false;
      timerDelay := 0.0;
      frameArmed := false;
      preview := AuditionState(None, 0);
    }

    /** `auditionNote`: the live preview, if any, is stopped and closed and a new
        one plays `n` as playback would. */
    method AuditionNote(n: Note, layers: Layers) returns (tone: Tone)
      requires ValidNotes()
      modifies this
      ensures ValidNotes()
      ensures preview == StartPreview(old(preview)) && tone == AuditionTone(n, layers)
      ensures notes == old(notes) && nextId == old(nextId) && selected == old(selected)
      ensures Gesture() == old(Gesture()) && Transport() == old(Transport())
      ensures currentBeatWidth == old(currentBeatWidth) && playheadX == old(playheadX)
    {
      preview := StartPreview(preview);
      tone := AuditionTone(n, layers);
    }

    /** The preview oscillator's `onended` callback for the context `token`. */
    method AuditionEnded(token: nat)
      requires Valid()
      modifies this
      ensures Valid()
      ensures preview == PreviewEnded(old(preview), token)
      ensures notes == old(notes) && nextId == old(nextId) && selected == old(selected)
      ensures Gesture() == old(Gesture()) && Transport() == old(Transport())
      ensures currentBeatWidth == old(currentBeatWidth) && playheadX == old(playheadX)
    {
      preview := PreviewEnded(preview, token);
    }

    /** `selectNote`: select `n` (or nothing) and preview a selected note. */
    method SelectNote(n: Option<Note>, layers: Layers) returns (tone: Option<Tone>)
      requires ValidNotes()
      requires n.Some? ==> HasId(notes, n.value.id)
      modifies this
      ensures Valid()
      ensures selected == (if n.Some? then Some(n.value.id) else None)
      ensures n.Some? ==> preview == StartPreview(old(preview)) && tone == Some(AuditionTone(n.value, layers))
      ensures n.None? ==> preview == old(preview) && tone == None
      ensures notes == old(notes) && nextId == old(nextId)
      ensures Gesture() == old(Gesture()) && Transport() == old(Transport())
      ensures currentBeatWidth == old(currentBeatWidth) && playheadX == old(playheadX)
    {
      selected := if n.Some? then Some(n.value.id) else None;
      tone := None;
      if n.Some? {
        var t := AuditionNote(n.value, layers);
        tone := Some(t);
      }
    }

    /** `mousedown`: grab the first note under the pointer, or create one. */
    method MouseDown(x: real, y: real, layers: Layers) returns (tone: Tone)
      requires Valid()
      modifies this
      ensures Valid()
      ensures preview == StartPreview(old(preview))
      ensures Transport() == old(Transport())
      ensures currentBeatWidth == old(currentBeatWidth) && playheadX == old(playheadX)
      ensures match NoteAt(old(notes), x, y, layers)
        case Some(i) =>
          var n := old(notes)[i];
          && notes == old(notes) && nextId == old(nextId)
          && current == Some(n.id) && selected == Some(n.id)
          && tone == AuditionTone(n, layers)
          && (mode == Resize <==> x > n.x + n.width - ResizeMargin && layers.duration)
          && (mode == Resize ==> dragOffsetX == old(dragOffsetX) && dragOffsetY == old(dragOffsetY))
          && (mode != Resize ==> mode == Move && dragOffsetX == x - n.x && dragOffsetY == y - PitchToY(n.pitch) as real)
        case None =>
          var n := NewNote(old(nextId), x, y, layers, old(currentBeatWidth));
          && notes == old(notes) + [n] && nextId == old(nextId) + 1
          && current == Some(n.id) && selected == Some(n.id) && mode == New
          && tone == AuditionTone(n, layers)
          && dragOffsetX == old(dragOffsetX) && dragOffsetY == old(dragOffsetY)
    {
      var hit := NoteAt(notes, x, y, layers);
      if hit.Some? {
        tone := GrabNote(hit.value, x, y, layers);
      } else {
        tone := CreateNote(x, y, layers);
      }
    }

    /** The hit branch of `mousedown`: select the note, then enter 'resize' near
        its right edge when the duration layer is on, 'move' otherwise. */
    method GrabNote(i: nat, x: real, y: real, layers: Layers) returns (tone: Tone)
      requires Valid() && i < |notes|
      modifies this
      ensures Valid()
      ensures preview == StartPreview(old(preview))
      ensures Transport() == old(Transport())
      ensures currentBeatWidth == old(currentBeatWidth) && playheadX == old(playheadX)
      ensures notes == old(notes) && nextId == old(nextId)
      ensures current == Some(notes[i].id) && selected == Some(notes[i].id)
      ensures tone == AuditionTone(notes[i], layers)
      ensures mode == Resize <==> x > notes[i].x + notes[i].width - ResizeMargin && layers.duration
      ensures mode == Resize ==> dragOffsetX == old(dragOffsetX) && dragOffsetY == old(dragOffsetY)
      ensures mode != Resize ==>
                mode == Move && dragOffsetX == x - notes[i].x && dragOffsetY == y - PitchToY(notes[i].pitch) as real
    {
      var n := notes[i];
      assert HasId(notes, n.id) by { assert notes[i].id == n.id; }
      current := Some(n.id);
      var t := SelectNote(Some(n), layers);
      tone := t.value;
      if x > n.x + n.width - ResizeMargin && layers.duration {
        mode := Resize;
      } else {
        mode := Move;
        dragOffsetX := x - n.x;
        dragOffsetY := y - PitchToY(n.pitch) as real;
      }
    }

    /** The miss branch of `mousedown`: append a new note, select it and enter 'new'. */
    method CreateNote(x: real, y: real, layers: Layers) returns (tone: Tone)
      requires Valid()
      modifies this
      ensures Valid()
      ensures preview == StartPreview(old(preview))
      ensures Transport() == old(Transport())
      ensures currentBeatWidth == old(currentBeatWidth) && playheadX == old(playheadX)
      ensures notes == old(notes) + [NewNote(old(nextId), x, y, layers, currentBeatWidth)]
      ensures nextId == old(nextId) + 1
      ensures current == Some(old(nextId)) && selected == Some(old(nextId)) && mode == New
      ensures tone == AuditionTone(NewNote(old(nextId), x, y, layers, currentBeatWidth), layers)
      ensures dragOffsetX == old(dragOffsetX) && dragOffsetY == old(dragOffsetY)
    {
      mode := New;
      var n := NewNote(nextId, x, y, layers, currentBeatWidth);
      AppendIds(notes, n, nextId);
      nextId := nextId + 1;
      notes := notes + [n];
      current := Some(n.id);
      var t := SelectNote(Some(n), layers);
      tone := t.value;
    }

    /** `mousemove`: drag the current note's right edge ('new', 'resize') or
        the whole note ('move'); a move that changes the pitch previews it. */
    method MouseMove(x: real, y: real, layers: Layers) returns (tone: Option<Tone>)
      requires Valid()
      modifies this
      ensures Valid()
      ensures nextId == old(nextId) && selected == old(selected)
      ensures Gesture() == old(Gesture()) && Transport() == old(Transport())
      ensures currentBeatWidth == old(currentBeatWidth) && playheadX == old(playheadX)
      ensures current.None? || IndexOf(old(notes), current.value).None? || mode == Idle ==>
                notes == old(notes) && preview == old(preview) && tone == None
      ensures current.Some? && IndexOf(old(notes), current.value).Some? ==>
                var i := IndexOf(old(notes), current.value).value;
                var n := old(notes)[i];
                && (mode == New || mode == Resize ==>
                      notes == old(notes)[i := Resized(n, x, layers, currentBeatWidth)]
                      && preview == old(preview) && tone == None)
                && (mode == Move ==>
                      var m := Moved(n, x, y, dragOffsetX, dragOffsetY, layers, currentBeatWidth);
                      && notes == old(notes)[i := m]
                      && (m.pitch != n.pitch ==> preview == StartPreview(old(preview)) && tone == Some(AuditionTone(m, layers)))
                      && (m.pitch == n.pitch ==> preview == old(preview) && tone == None))
    {
      tone := None;
      if current.None? {
        return;
      }
      var found := IndexOf(notes, current.value);
      if found.None? {
        return;
      }
      var i := found.value;
      var n := notes[i];
      if mode == New || mode == Resize {
        var r := Resized(n, x, layers, currentBeatWidth);
        ReplaceIds(notes, i, r, nextId);
        notes := notes[i := r];
      } else if mode == Move {
        var m := Moved(n, x, y, dragOffsetX, dragOffsetY, layers, currentBeatWidth);
        ReplaceIds(notes, i, m, nextId);
        notes := notes[i := m];
        if m.pitch != n.pitch {
          var t := AuditionNote(m, layers);
          tone := Some(t);
        }
      }
    }

    /** `mouseup`: end the gesture; the notes stay as they are. */
    method MouseUp()
      requires Valid()
      modifies this
      ensures Valid()
      ensures current == None && mode == Idle
      ensures dragOffsetX == old(dragOffsetX) && dragOffsetY == old(dragOffsetY)
      ensures notes == old(notes) && nextId == old(nextId) && selected == old(selected)
      ensures Transport() == old(Transport()) && preview == old(preview)
      ensures currentBeatWidth == old(currentBeatWidth) && playheadX == old(playheadX)
    {
      current := None;
      mode := Idle;
    }

    /** `dblclick`: delete the first note under the pointer, clearing the
        selection if it was that note. */
    method DoubleClick(x: real, y: real, layers: Layers)
      requires Valid()
      modifies this
      ensures Valid()
      ensures nextId == old(nextId) && Gesture() == old(Gesture()) && Transport() == old(Transport())
      ensures preview == old(preview)
      ensures currentBeatWidth == old(currentBeatWidth) && playheadX == old(playheadX)
      ensures match NoteAt(old(notes), x, y, layers)
        case None => notes == old(notes) && selected == old(selected)
        case Some(i) =>
          && notes == RemoveAt(old(notes), i)
          && !HasId(notes, old(notes)[i].id)
          && selected == (if old(selected) == Some(old(notes)[i].id) then None else old(selected))
    {
      var hit := NoteAt(notes, x, y, layers);
      if hit.Some? {
        var i := hit.value;
        var id := notes[i].id;
        RemoveAtIds(notes, i, nextId);
        notes := RemoveAt(notes, i);
        if selected == Some(id) {
          var _ := SelectNote(None, layers);
        }
      }
    }

    /** The velocity slider's `input`: with the loudness layer on, the selected
        note takes the slider's value. */
    method VelocityInput(value: int, layers: Layers)
      requires Valid()
      modifies this
      ensures Valid()
      ensures nextId == old(nextId) && selected == old(selected)
      ensures Gesture() == old(Gesture()) && Transport() == old(Transport()) && preview == old(preview)
      ensures currentBeatWidth == old(currentBeatWidth) && playheadX == old(playheadX)
      ensures selected.None? || !layers.loudness ==> notes == old(notes)
      ensures selected.Some? && layers.loudness ==>
                IndexOf(old(notes), selected.value).Some?
                && var i := IndexOf(old(notes), selected.value).value;
                   notes == old(notes)[i := old(notes)[i].(velocity := value)]
    {
      if selected.Some? && layers.loudness {
        var i := IndexOf(notes, selected.value).value;
        ReplaceIds(notes, i, notes[i].(velocity := value), nextId);
        notes := notes[i := notes[i].(velocity := value)];
      }
    }

    /** The tempo slider's `input`: every note's position and width, and the
        playhead, are rescaled by the ratio of the new beat width to the old
        one, so every position in beats is kept. */
    method TempoInput(tempo: int)
      requires Valid() && tempo > 0
      modifies this
      ensures Valid()
      ensures currentBeatWidth == BeatWidth(tempo)
      ensures |notes| == |old(notes)|
      ensures forall i :: 0 <= i < |notes| ==>
                notes[i] == Rescaled(old(notes)[i], BeatWidth(tempo) / old(currentBeatWidth))
      ensures forall i :: 0 <= i < |notes| ==>
                notes[i].x / currentBeatWidth == old(notes[i].x / currentBeatWidth)
                && notes[i].width / currentBeatWidth == old(notes[i].width / currentBeatWidth)
      ensures playheadX / currentBeatWidth == old(playheadX / currentBeatWidth)
      ensures nextId == old(nextId) && selected == old(selected)
      ensures Gesture() == old(Gesture()) && Transport() == old(Transport()) && preview == old(preview)
    {
      var newBeatWidth := BeatWidth(tempo);
      var scale := newBeatWidth / currentBeatWidth;
      var rescaled := RescaleAll(notes, scale);
      RescaledList(notes, rescaled, currentBeatWidth, newBeatWidth, nextId);
      ScaledBeats(playheadX, currentBeatWidth, newBeatWidth);
      notes := rescaled;
      playheadX := playheadX * scale;
      currentBeatWidth := newBeatWidth;
    }

    /** `playNotes`: open the audio context, start the playhead at 0, schedule
        one tone per note and arm the auto-stop timer for when the last one ends. */
    method PlayNotes(now: real, layers: Layers) returns (tones: seq<Tone>)
      requires Valid()
      modifies this
      ensures Valid()
      ensures isPlaying && audioOpen && timerArmed && frameArmed
      ensures playStartTime == now && playheadX == 0.0
      ensures |tones| == |notes|
      ensures forall i :: 0 <= i < |notes| ==> tones[i] == ToneFor(notes[i], layers, now)
      ensures timerDelay >= 0.0
      ensures forall i :: 0 <= i < |tones| ==> tones[i].stop <= now + timerDelay / 1000.0
      ensures timerDelay == 0.0 || exists i :: 0 <= i < |tones| && tones[i].stop == now + timerDelay / 1000.0
      ensures notes == old(notes) && nextId == old(nextId) && selected == old(selected)
      ensures Gesture() == old(Gesture()) && preview == old(preview)
      ensures currentBeatWidth == old(currentBeatWidth)
    {
      audioOpen := true;
      playStartTime := now;
      playheadX := 0.0;
      frameArmed := true;
      var endTime;
      tones, endTime := ScheduleNotes(notes, layers, now);
      isPlaying := true;
      timerArmed := true;
      timerDelay := (endTime - now) * 1000.0;
    }

    /** `stopPlayback`: close the audio context (leaving the playhead where the
        clock has got to), cancel the timer and the frame callback. On a
        stopped editor it changes nothing. */
    method StopPlayback(now: real)
      requires Valid()
      modifies this
      ensures Valid()
      ensures !isPlaying && !audioOpen && !timerArmed && !frameArmed
      ensures playheadX == if old(audioOpen) then (now - old(playStartTime)) / TimePerPixel else old(playheadX)
      ensures playStartTime == old(playStartTime) && timerDelay == old(timerDelay)
      ensures old(Transport()) == (false, false, old(playStartTime), false, old(timerDelay), false) ==>
                Transport() == old(Transport()) && playheadX == old(playheadX)
      ensures notes == old(notes) && nextId == old(nextId) && selected == old(selected)
      ensures Gesture() == old(Gesture()) && preview == old(preview)
      ensures currentBeatWidth == old(currentBeatWidth)
    {
      if audioOpen {
        playheadX := (now - playStartTime) / TimePerPixel;
        audioOpen := false;
      }
      timerArmed := false;
      frameArmed := false;
      isPlaying := false;
    }

    /** The play button: stop when playing, otherwise play. */
    method PlayButton(now: real, layers: Layers) returns (tones: seq<Tone>)
      requires Valid()
      modifies this
      ensures Valid()
      ensures isPlaying == !old(isPlaying)
      ensures old(isPlaying) ==> tones == [] && !audioOpen && !timerArmed && !frameArmed
      ensures old(isPlaying) ==>
                && playheadX == (if old(audioOpen) then (now - old(playStartTime)) / TimePerPixel else old(playheadX))
                && playStartTime == old(playStartTime) && timerDelay == old(timerDelay)
      ensures !old(isPlaying) ==>
                && audioOpen && timerArmed && frameArmed
                && playStartTime == now && playheadX == 0.0
                && |tones| == |notes|
                && (forall i :: 0 <= i < |notes| ==> tones[i] == ToneFor(notes[i], layers, now))
                && timerDelay >= 0.0
                && (forall i :: 0 <= i < |tones| ==> tones[i].stop <= now + timerDelay / 1000.0)
                && (timerDelay == 0.0 || exists i :: 0 <= i < |tones| && tones[i].stop == now + timerDelay / 1000.0)
      ensures notes == old(notes) && nextId == old(nextId) && selected == old(selected)
      ensures Gesture() == old(Gesture()) && preview == old(preview)
      ensures currentBeatWidth == old(currentBeatWidth)
    {
      if isPlaying {
        StopPlayback(now);
        tones := [];
      } else {
        tones := PlayNotes(now, layers);
      }
    }

    /** One frame of `updatePlayhead` at audio-clock reading `now`: while
        playing, the playhead is the elapsed time in pixels and the next frame
        is requested. */
    method UpdatePlayhead(now: real)
      requires Valid()
      modifies this
      ensures Valid()
      ensures isPlaying && audioOpen ==>
                playheadX == (now - playStartTime) / TimePerPixel && frameArmed
      ensures !(isPlaying && audioOpen) ==> playheadX == old(playheadX) && frameArmed == old(frameArmed)
      ensures isPlaying == old(isPlaying) && audioOpen == old(audioOpen)
      ensures playStartTime == old(playStartTime) && timerArmed == old(timerArmed) && timerDelay == old(timerDelay)
      ensures notes == old(notes) && nextId == old(nextId) && selected == old(selected)
      ensures Gesture() == old(Gesture()) && preview == old(preview)
      ensures currentBeatWidth == old(currentBeatWidth)
    {
      if !isPlaying || !audioOpen {
        return;
      }
      playheadX := (now - playStartTime) / TimePerPixel;
      frameArmed := true;
    }
  }
}
