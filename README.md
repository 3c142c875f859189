# Piano-roll note editor, modelled in Dafny

This model covers two of melody-peeler's browser piano-roll editors, app.js and script.js. In both, the user draws
notes on a pitch × time canvas with the mouse, then moves, resizes and
deletes them, and plays them back through Web Audio while a red playhead
runs across the grid.

- **app.js** is the full editor.
  - Notes are stored in canvas pixels and pitches are MIDI numbers 24–84.
  - Layer checkboxes switch the pitch, duration and loudness axes on and off.
  - Optional snapping and discrete-time options put notes on a quarter-beat grid.
  - A tempo slider rescales every note.
  - Selecting a note or changing its pitch plays a short preview.
  - Playback stops itself on a timer when the last tone ends.
- **script.js** is the simpler editor.
  - Notes are stored in beats on a grid of twelve rows.
  - It has a velocity slider and a checkbox that decides whether playback uses each note's velocity.
  - Playback is driven by an animation-frame loop that stops once the playhead reaches the piece's last beat.

The model covers, for each editor:

- the note data and its pixel/beat/row geometry;
- the hit test (the first note in list order whose box holds the point);
- the pointer state machine (press, drag, release, double-click), modelled as a class whose fields are the script's global variables and whose methods are the event handlers;
- the slider handlers;
- the transport.

Audio output is modelled as the tones a handler schedules: start and stop on the audio clock, pitch and gain. Anything the handlers read from the page comes in as a method parameter:

- pointer coordinates;
- checkbox states (`Layers` in app.js, `velocityOn` in script.js);
- slider values;
- readings of the audio clock (`now`).

JavaScript object identity becomes a note id. `selectedNote` and `currentNote` hold ids, and each editor's `Valid()` keeps the ids distinct and the selection present in the list.

Modules:

- `Common`: `Option`, the gesture `Mode` (`Idle` stands for JavaScript `null`), `Max` and `RemoveAt`.
- `AppNotes` and `AppEditor`: app.js.
- `ScriptNotes` and `ScriptEditor`: script.js.

### Behaviour of the code worth knowing

- app.js stores notes in pixels, not beats, and multiplies every position and width by the ratio of beat widths on each tempo change. `TempoInput` proves that this keeps every note's position and width in beats, and the playhead's position too.
- The play button of each editor toggles between playing from the start and stopping. There is no pause or resume and no metronome.
- When app.js's playback stops, the playhead stays at the elapsed audio time, even when the timer stops it after the last tone (`StopPlayback`); it is not moved back to 0.
- script.js's `stop` neither closes the audio context nor cancels tones already scheduled, so they keep sounding after a stop.
- Both hit tests return the first matching note in list order, that is the oldest one, although later notes are drawn on top of it.
- app.js's `yToPitch` is not clamped. A point outside the canvas rows gives a pitch outside [24, 84] (`AppNotes.YToPitch`).
- script.js clamps its row, but it counts rows from the top for new and moved notes, while drawing and hit testing count from the bottom:
  - a new note is drawn in the mirror row, and its box holds the press point only on the line y = 180 (`NewNoteRowMismatch`);
  - a move that does not displace the note vertically changes its pitch p to 11 − p (`MoveInPlaceFlipsPitch`).
- In app.js, a drag in 'new' or 'resize' mode with discrete time on never shortens a note below one grid step. It is not floored at one pixel.
- In script.js, `play` with no notes (total length 0 beats) paints the playhead at 0 and stops again at once (`Play`).

## Model

| member | source | states |
|---|---|---|
| Common.Max | script.js:113 | `Math.max`: the result is one of the two arguments and at least both |
| Common.RemoveAt | app.js:123 | `notes.splice(i, 1)` (also script.js:132): one shorter, every other note kept in order |
| AppNotes.PitchToY | app.js:41-43 | the top edge of a pitch's row is `maxPitch − pitch` row heights down, so higher pitches are higher up, and lies on the canvas exactly when the pitch is in [minPitch, maxPitch]; how it inverts `yToPitch` is stated by YToPitch and YToPitchInverts |
| AppNotes.BeatWidth | app.js:34-37 | pixels per beat are positive, and a beat's pixels at the base time-per-pixel last 60/tempo seconds |
| AppNotes.YToPitch | app.js:41-46 | the pitch returned has its row (per `pitchToY`) containing `y`; it is within [minPitch, maxPitch] exactly when `y` is on the canvas |
| AppNotes.YToPitchInverts | app.js:41-46 | every point of a pitch's row maps back to that pitch |
| AppNotes.Round | app.js:71 | `Math.round` gives the integer within half of its argument, halves rounding up |
| AppNotes.Snap | app.js:70-71 | the snapped value is a whole number of grid steps and lies within half a step of the input |
| AppNotes.SnapOfMultiple | app.js:97-101 | a position already on the grid snaps to itself |
| AppNotes.SnapIdempotent | app.js:97-101 | snapping twice equals snapping once |
| AppNotes.NoteAt | app.js:188-190 | `notes.find`: returns the first index, in list order, whose box (effective width, stored pitch, edges included) holds the point, and none exactly when no box does |
| AppNotes.IndexOf | app.js:123 | `notes.indexOf`: an index holding the id, and none exactly when no note has it |
| AppNotes.IndexOfUnique | app.js:123 | with distinct ids, looking up a note's id finds that note's index |
| AppNotes.AppendIds | app.js:73-79 | pushing a note with a fresh id keeps ids distinct and below the counter, and adds exactly that id |
| AppNotes.ReplaceIds | app.js:94-106 | assigning a note's fields keeps the list's ids |
| AppNotes.RemoveAtIds | app.js:122-125 | deleting index i removes exactly that note's id and keeps the rest distinct |
| AppNotes.NewNote | app.js:67-81 | a new note has the default velocity and the pitch of the row under the pointer. It starts at the pointer, or on the snapped grid line when snap is on. Its width is one grid step with discrete time, 1 pixel otherwise. Without snap its box holds the press point |
| AppNotes.Resized | app.js:87-95 | only the width changes, and only with the duration layer on. Without discrete time it is the dragged width floored at 1 pixel, so the right edge follows the pointer. With discrete time it is a multiple of the grid step and at least one step (which can be under 1 pixel): exactly one step when the dragged width is under half a step, and otherwise the grid multiple nearest to the dragged width |
| AppNotes.SnapAtLeastStep | app.js:92 | a dragged width of at least half a step snaps to at least one step |
| AppNotes.Moved | app.js:96-110 | the x offset follows the pointer minus the press offset (snapped when snap is on). With the pitch layer on, the pitch is the row under the offset pointer; width, velocity and id are kept |
| AppNotes.MoveToPressPointKeepsNote | app.js:60-66 | moving the pointer back to the press point leaves a grabbed note unchanged, when snapping is off or the note is on the grid. A note created with snapping off and grabbed after snapping is turned on jumps to the nearest grid line |
| AppNotes.Rescaled | app.js:142-145 | a note's position and width are multiplied by the scale; id, pitch and velocity are kept |
| AppNotes.ScaledBeats | app.js:139-147 | a pixel value scaled by new/old beat width is the same number of beats |
| AppNotes.RescaleKeepsBeats | app.js:142-145 | the rescaled note has the same start and width in beats |
| AppNotes.RescaledList | app.js:139-147 | a rescaled list keeps every position and width in beats, positive widths, and the ids |
| AppNotes.RescaleAll | app.js:142-145 | the tempo loop rescales every note, in order |
| AppNotes.ToneFor | app.js:286-291 | a note's tone starts when the playhead (elapsed seconds / time per pixel) reaches its x, and stops when the playhead reaches its right edge. The pitch is the note's own with the pitch layer on, the default pitch otherwise. The gain is the note's velocity / 127 with the loudness layer on, the default velocity / 127 otherwise, so it is in [0, 1] for velocities in [0, 127] |
| AppNotes.AuditionTone | app.js:247-249 | the preview is the playback tone of the same note moved to x = 0 and started at clock 0 on the fresh preview context, so it lasts the note's effective width |
| AppNotes.AuditionMatchesPlayback | app.js:245-265 | a preview has the pitch, gain and length the note has in playback |
| AppNotes.ToneAtBeat | app.js:283-291 | playback starts a note at its beat position in seconds at the current tempo, and sounds it for its width in beats |
| AppNotes.TempoChangeRetimesNote | app.js:139-147 | after a tempo change a note starts at the same beat in seconds at the new tempo |
| AppNotes.ScheduleNotes | app.js:282-298 | the schedule has one tone per note, in order. The end time is at least `now` and at least every stop, and it is `now` or some tone's stop; for a non-empty list with non-negative offsets and widths it is the latest stop |
| AppNotes.StartPreview | app.js:234-246 | a new preview token replaces any live one, different from every earlier token |
| AppNotes.PreviewEnded | app.js:257-263 | the end of preview `token` clears the live preview exactly when it is that one |
| AppNotes.StalePreviewEndIgnored | app.js:257-263 | an older preview's end does not clear the preview that replaced it |
| AppNotes.OwnPreviewEndClears | app.js:257-263 | the live preview's own end clears it |
| AppEditor.Editor.constructor | app.js:24-53 | empty editor, nothing selected or playing, beat width of the initial tempo |
| AppEditor.Editor.AuditionNote | app.js:234-266 | stops the live preview and starts the note's preview; nothing else changes |
| AppEditor.Editor.AuditionEnded | app.js:257-263 | the preview callback updates only the preview state |
| AppEditor.Editor.SelectNote | app.js:169-178 | sets the selection and previews a selected note; nothing else changes |
| AppEditor.Editor.MouseDown | app.js:55-82 | on a hit, the note is grabbed (see GrabNote); on a miss, a new note is appended (see CreateNote) |
| AppEditor.Editor.GrabNote | app.js:58-66 | selects and previews the hit note. It enters 'resize' exactly when the pointer is within 5 px of the right edge with the duration layer on; otherwise it enters 'move' with the press offsets |
| AppEditor.Editor.CreateNote | app.js:67-81 | appends `NewNote` with a fresh id, and makes it current, selected, previewed and in 'new' mode |
| AppEditor.Editor.MouseMove | app.js:84-112 | replaces the current note by `Resized` or `Moved` according to the mode, previewing a move that changes the pitch; with no current note nothing changes |
| AppEditor.Editor.MouseUp | app.js:114-117 | clears the current note and the mode; notes and selection are kept |
| AppEditor.Editor.DoubleClick | app.js:119-130 | removes the first hit note (its id leaves the list), clearing the selection when it was that note; on a miss nothing changes |
| AppEditor.Editor.VelocityInput | app.js:132-137 | with the loudness layer on, the selected note takes the slider value; otherwise nothing changes |
| AppEditor.Editor.TempoInput | app.js:139-149 | every note and the playhead are rescaled to the new beat width, keeping their positions in beats |
| AppEditor.Editor.PlayNotes | app.js:275-304 | schedules one tone per note from `now`, starts the playhead at 0, arms the frame loop and the timer; the timer fires when the last tone stops |
| AppEditor.Editor.StopPlayback | app.js:306-323 | closes audio, leaves the playhead at the elapsed audio time, cancels the timer and frame; on a stopped editor it changes nothing |
| AppEditor.Editor.PlayButton | app.js:156-162 | toggles: when playing, it does what `StopPlayback` does (the tones are empty, the playhead follows the clock when audio was open, the timer and frame are cancelled); otherwise it does what `PlayNotes` does (the tones, the playhead at 0, and the timer for the last stop) |
| AppEditor.Editor.UpdatePlayhead | app.js:268-273 | while playing, the playhead is the elapsed audio time in pixels and the next frame is requested; otherwise nothing changes |
| ScriptNotes.YToPitch | script.js:60-62 | the row under `y` counted from the top, clamped to [0, 11]; on the canvas, that row contains `y` |
| ScriptNotes.RowTop | script.js:71 | the drawn row of a pitch lies on the canvas exactly when the pitch is in [0, 11], and `yToPitch` reads that row back as 11 − pitch |
| ScriptNotes.XToBeat | script.js:64-66 | the beat whose pixel is `x` |
| ScriptNotes.NoteAt | script.js:68-78 | the loop returns the first index whose box (edges included) holds the point, and none exactly when no box does |
| ScriptNotes.FirstHitUnique | script.js:68-78 | at most one index is the first hit |
| ScriptNotes.NewNoteRowMismatch | script.js:95-101 | a new note's drawn box holds the press point only on the line y = 180 |
| ScriptNotes.IndexOf | script.js:132 | `notes.indexOf`: an index holding the id, and none exactly when no note has it |
| ScriptNotes.AppendIds | script.js:99-100 | pushing a note with a fresh id keeps ids distinct and adds exactly that id; the grid invariant is kept |
| ScriptNotes.ReplaceIds | script.js:112-117 | assigning a note's fields keeps the ids and the grid invariant |
| ScriptNotes.RemoveAtIds | script.js:131-133 | deleting index i removes exactly that note's id; distinct ids and the grid invariant are kept |
| ScriptNotes.NewNote | script.js:95-101 | a new note starts at the pointer's beat, lasts 0.1 beats, has the slider's velocity and the pitch of the row (from the top) under the pointer |
| ScriptNotes.Resized | script.js:112-113 | only the duration changes; it is at least 0.1 beats, and with room for that the end follows the pointer |
| ScriptNotes.Moved | script.js:114-117 | the start follows the offset pointer but is never below beat 0; the pitch is the row under the offset pointer, row 0 above the canvas and row 11 from y = 330 down |
| ScriptNotes.MoveInPlaceFlipsPitch | script.js:88-117 | a move that leaves the pointer at the press point changes pitch p to 11 − p, and never keeps it |
| ScriptNotes.TotalBeats | script.js:170 | the reduce gives a value of at least 0 and at least every note's end. It is 0 or some note's end |
| ScriptNotes.ToneFor | script.js:172-174 | a note's tone starts and stops, in beats after playback start, at the note's start and end. Pitch p sounds as MIDI 60 + p, so a grid pitch sounds as MIDI 60–71. The gain is the note's velocity with the checkbox on, 0.8 otherwise |
| ScriptNotes.ScheduleTones | script.js:171-183 | one tone per note, in order, each stopping by the piece's total length |
| ScriptNotes.StopTestMeansAllTonesDone | script.js:184-193 | the step loop's stop test holds exactly when every scheduled tone has stopped |
| ScriptEditor.Editor.constructor | script.js:12-17 | empty editor with nothing selected, drawing or playing |
| ScriptEditor.Editor.MouseDown | script.js:80-105 | grabs the first hit note (see GrabNote) or appends a new one (see CreateNote), then starts drawing |
| ScriptEditor.Editor.GrabNote | script.js:85-94 | selects the hit note and shows its velocity. It enters 'resize' exactly when the pointer is within 5 px of the right edge; otherwise it enters 'move' with the press offsets |
| ScriptEditor.Editor.CreateNote | script.js:95-101 | appends `NewNote` with the slider's velocity, selected, in 'new' mode |
| ScriptEditor.Editor.MouseMove | script.js:107-119 | while drawing, replaces the selected note by `Resized` or `Moved` according to the drag type; otherwise nothing changes |
| ScriptEditor.Editor.MouseUp | script.js:121-124 | stops drawing and clears the drag type; notes and selection are kept |
| ScriptEditor.Editor.DoubleClick | script.js:126-136 | removes the first hit note, clearing the selection when it was that note; on a miss nothing changes |
| ScriptEditor.Editor.VelocityInput | script.js:138-143 | the selected note, if any, takes the slider value |
| ScriptEditor.Editor.Play | script.js:165-195 | schedules one tone per note from `now` and stores the total length. It keeps playing, with the playhead at 0, exactly when that length is positive |
| ScriptEditor.Editor.Step | script.js:184-193 | paints the playhead at the elapsed beats, then stops once they reach the total length, or requests the next frame |
| ScriptEditor.Editor.Frame | script.js:191 | the requested frame runs `Step` |
| ScriptEditor.Editor.Stop | script.js:197-202 | clears the playing flag, the frame request and the playhead; on a stopped editor it changes nothing |
| ScriptEditor.Editor.PlayButton | script.js:157-163 | toggles: when playing, it does what `Stop` does (the audio context is left as it was); otherwise it does what `Play` does (the tones and their stop bound, the total length, and playing with a frame request and the playhead at 0 exactly when that length is positive) |

## Left out

- Rendering is not modelled: `draw`, `drawGrid`, colours, the selection outline and the grid lines. The only rendering state kept is whether script.js's canvas shows a playhead line.
- The DOM is not modelled: `getMousePos`, element lookups and the play button's label. Coordinates and control values are parameters.
- Web Audio is not modelled beyond the tones' timing, pitch and gain: no contexts, oscillators or gain nodes, and no frequencies (`midiToFreq` and `440 * 2^(...)`).
  - The audio contexts are flags.
  - The timing of audio callbacks and of `setTimeout` is left to the caller. The timer's callback is `StopPlayback`, and the frame callbacks are `UpdatePlayhead` and `Frame`.
- Floating point is not modelled. Positions and times are exact reals, so results at exact halves, and rounding drift from repeated rescaling, are not captured.
- `parseInt` and `parseFloat` of slider strings are not modelled. The slider values come in as numbers. The sliders' ranges and steps are set in HTML, which is not part of this model.
- AppNotes.BeatWidth: requires a positive tempo. The tempo slider's range is in HTML, which is not part of this model. A zero tempo would give an infinite beat width, which is not modelled.
- app.js `updateControls` only disables the velocity widget and repaints; it is not modelled. Neither is the write to `velocitySlider.value` in `selectNote`. The layer checkboxes' `change` listeners call only `updateControls`.
- script.js: the velocity checkbox's `change` listener only repaints, and it is not modelled. So the `playhead` field does not record that this repaint also erases the playhead line.
- AppEditor.Editor.MouseMove: a current note that is no longer in the list (deleted by a double-click in the middle of a drag, which browser event order does not produce) is left alone instead of being mutated as a detached object.
- ScriptEditor.Editor.MouseMove: while drawing with nothing selected, the source has no guard and would throw. The source throws before its repaint, so the playhead line stays. The model leaves the notes unchanged but clears the playhead as if the repaint had run. Browser event order does not produce this state, because every press selects a note.
- script.js's canvas height is read from the page (`canvas.height / PITCHES`); the page is not part of this model. The model fixes the height at 360 pixels, rows of 30 pixels, as the source's comment says. `NewNoteRowMismatch`'s line y = 180 is half of that height, and `YToPitch`, `RowTop` and `Moved` state their rows for that height.
- `try`/`catch` around the preview oscillator's `stop` is not modelled. The preview is the pure `AuditionState`: a token for the live preview context and a counter.
