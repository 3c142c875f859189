/** The value-level part of app.js: the pitch/row and beat/pixel geometry, grid
    snapping, the hit test, the edits the pointer handlers apply to one note, and
    the playback schedule. Note positions and widths are pixels of the canvas;
    times are seconds on an audio clock. */
module AppNotes {
  import opened Common

  const NoteHeight: int := 10            // pixels per semitone
  const MaxPitch: int := 84
  const MinPitch: int := 24
  const DefaultPitch: int := 60
  const DefaultWidth: real := 40.0
  const DefaultVelocity: int := 100
  const BaseTimePerPixel: real := 0.01   // seconds per pixel
  /** `timePerPixel` starts at `baseTimePerPixel` and is never assigned again. */
  const TimePerPixel: real := BaseTimePerPixel
  const PitchCount: int := MaxPitch - MinPitch + 1
  const CanvasHeight: int := PitchCount * NoteHeight
  /** A press this close to a note's right edge grabs its resize handle. */
  const ResizeMargin: real := 5.0
  const MaxVelocity: real := 127.0

  datatype Note = Note(id: nat, x: real, width: real, pitch: int, velocity: int)

  /** The checkboxes the handlers consult. */
  datatype Layers = Layers(pitch: bool, duration: bool, loudness: bool, discreteTime: bool, snap: bool)

  /** One oscillator: when it starts and stops on the audio clock, the MIDI
      pitch it sounds and its gain in [0, 1] for velocities in [0, 127]. */
  datatype Tone = Tone(start: real, stop: real, pitch: int, gain: real)

  // ---------------------------------------------------------------- geometry

  /** Pixels per beat at `tempo` beats per minute. */
  function BeatWidth(tempo: int): (w: real)
    requires tempo > 0
    ensures w > 0.0
    ensures w * BaseTimePerPixel == 60.0 / tempo as real
  {
    (60.0 / tempo as real) / BaseTimePerPixel
  }

  /** The grid subdivision used for snapping: a quarter of a beat. */
  function GridStep(beatWidth: real): real
  {
    beatWidth / 4.0
  }

  /** The top edge of the row that shows `pitch`; higher pitches are higher up. */
  function PitchToY(pitch: int): (y: int)
    ensures y % NoteHeight == 0
    ensures y / NoteHeight == MaxPitch - pitch
    ensures MinPitch <= pitch <= MaxPitch <==> 0 <= y < CanvasHeight
  {
    (MaxPitch - pitch) * NoteHeight
  }

  /** The pitch whose row holds `y`. Not clamped: rows above or below the canvas
      give pitches outside [MinPitch, MaxPitch]. */
  function YToPitch(y: real): (p: int)
    ensures PitchToY(p) as real <= y < PitchToY(p) as real + NoteHeight as real
    ensures MinPitch <= p <= MaxPitch <==> 0.0 <= y < CanvasHeight as real
  {
    MaxPitch - (y / NoteHeight as real).Floor
  }

  lemma {:induction false} YToPitchInverts(p: int, k: real)
    requires 0.0 <= k < NoteHeight as real
    ensures YToPitch(PitchToY(p) as real + k) == p
  {
  }

  // ---------------------------------------------------------------- snapping

  /** JavaScript's `Math.round`: the nearest integer, halves rounded up. */
  function Round(r: real): (n: int)
    ensures n as real - 0.5 <= r < n as real + 0.5
  {
    (r + 0.5).Floor
  }

  /** `w` is a whole number of grid steps. */
  predicate IsMultiple(w: real, step: real)
    requires step > 0.0
  {
    (w / step).Floor as real == w / step
  }

  /** The grid line `n * step` nearest to `x` is within half a step of it. */
  lemma NearestLineBounds(x: real, step: real, n: int)
    requires step > 0.0
    requires n as real - 0.5 <= x / step < n as real + 0.5
    ensures n as real * step - step / 2.0 <= x < n as real * step + step / 2.0
  {
    var q, lo, hi := x / step, n as real - 0.5, n as real + 0.5;
    MultiplyBounds(lo, q, hi, step);
    assert q * step == x;
    assert hi * step == n as real * step + step / 2.0;
    assert lo * step == n as real * step - step / 2.0;
  }

  lemma MultiplyBounds(lo: real, q: real, hi: real, step: real)
    requires step > 0.0 && lo <= q < hi
    ensures lo * step <= q * step < hi * step
  {
  }

  /** `Math.round(x / step) * step`: the grid line nearest to `x`. */
  function Snap(x: real, step: real): (s: real)
    requires step > 0.0
    ensures IsMultiple(s, step)
    ensures s - step / 2.0 <= x < s + step / 2.0
  {
    var n := Round(x / step);
    assert (n as real * step) / step == n as real;
    NearestLineBounds(x, step, n);
    n as real * step
  }

  /** A value already on the grid snaps to itself. */
  lemma {:induction false} SnapOfMultiple(x: real, step: real)
    requires step > 0.0 && IsMultiple(x, step)
    ensures Snap(x, step) == x
  {
    var n := (x / step).Floor;
    assert Round(x / step) == n;
    assert (x / step) * step == x;
    assert n as real * step == x;
  }

  lemma {:induction false} SnapIdempotent(x: real, step: real)
    requires step > 0.0
    ensures Snap(Snap(x, step), step) == Snap(x, step)
  {
    SnapOfMultiple(Snap(x, step), step);
  }

  // ---------------------------------------------------------------- hit test

  /** What the hit test and playback use when a layer is switched off. */
  function EffectiveWidth(n: Note, layers: Layers): real
  {
    if layers.duration then n.width else DefaultWidth
  }

  function EffectivePitch(n: Note, layers: Layers): int
  {
    if layers.pitch then n.pitch else DefaultPitch
  }

  function EffectiveVelocity(n: Note, layers: Layers): int
  {
    if layers.loudness then n.velocity else DefaultVelocity
  }

  /** The box of `n`, edges included. The row comes from the stored pitch even
      when the pitch layer is off. */
  predicate Contains(n: Note, x: real, y: real, layers: Layers)
  {
    && n.x <= x <= n.x + EffectiveWidth(n, layers)
    && PitchToY(n.pitch) as real <= y <= (PitchToY(n.pitch) + NoteHeight) as real
  }

  /** `notes.find(...)`: the index of the first note, in list order, whose box
      holds the point. */
  function NoteAt(notes: seq<Note>, x: real, y: real, layers: Layers): (r: Option<nat>)
    ensures r.Some? ==> r.value < |notes| && Contains(notes[r.value], x, y, layers)
    ensures r.Some? ==> forall j :: 0 <= j < r.value ==> !Contains(notes[j], x, y, layers)
    ensures r.None? <==> forall j :: 0 <= j < |notes| ==> !Contains(notes[j], x, y, layers)
  {
    if notes == [] then None
    else if Contains(notes[0], x, y, layers) then Some(0)
    else
      match NoteAt(notes[1..], x, y, layers)
      case None => None
      case Some(k) => Some(k + 1)
  }

  // ---------------------------------------------------------------- identity

  /** JavaScript compares notes by object identity; each note here carries an id. */
  predicate DistinctIds(notes: seq<Note>)
  {
    forall i, j :: 0 <= i < j < |notes| ==> notes[i].id != notes[j].id
  }

  predicate IdsBelow(notes: seq<Note>, bound: nat)
  {
    forall i :: 0 <= i < |notes| ==> notes[i].id < bound
  }

  predicate HasId(notes: seq<Note>, id: nat)
  {
    exists j :: 0 <= j < |notes| && notes[j].id == id
  }

  /** Where the note object with identity `id` sits in the list. */
  function IndexOf(notes: seq<Note>, id: nat): (r: Option<nat>)
    ensures r.Some? ==> r.value < |notes| && notes[r.value].id == id
    ensures r.None? <==> forall j :: 0 <= j < |notes| ==> notes[j].id != id
  {
    if notes == [] then None
    else if notes[0].id == id then Some(0)
    else
      match IndexOf(notes[1..], id)
      case None => None
      case Some(k) => Some(k + 1)
  }

  /** With distinct ids, a note found by id is the only one with that id. */
  lemma {:induction false} IndexOfUnique(notes: seq<Note>, i: nat)
    requires DistinctIds(notes) && i < |notes|
    ensures IndexOf(notes, notes[i].id) == Some(i)
  {
  }

  /** `notes.push(n)` of a note with a fresh identity. */
  lemma AppendIds(notes: seq<Note>, n: Note, bound: nat)
    requires DistinctIds(notes) && IdsBelow(notes, bound) && n.id == bound
    ensures DistinctIds(notes + [n]) && IdsBelow(notes + [n], bound + 1)
    ensures forall id :: HasId(notes + [n], id) <==> HasId(notes, id) || id == n.id
  {
    var r := notes + [n];
    assert r[|notes|].id == n.id;
    forall id | HasId(notes, id) ensures HasId(r, id) {
      var k :| 0 <= k < |notes| && notes[k].id == id;
      assert r[k].id == id;
    }
  }

  /** Assigning fields of a note object other than its identity. */
  lemma ReplaceIds(notes: seq<Note>, i: nat, m: Note, bound: nat)
    requires i < |notes| && m.id == notes[i].id
    requires DistinctIds(notes) && IdsBelow(notes, bound)
    ensures DistinctIds(notes[i := m]) && IdsBelow(notes[i := m], bound)
    ensures forall id :: HasId(notes[i := m], id) <==> HasId(notes, id)
  {
    var r := notes[i := m];
    assert forall j :: 0 <= j < |notes| ==> r[j].id == notes[j].id;
    forall id | HasId(notes, id) ensures HasId(r, id) {
      var k :| 0 <= k < |notes| && notes[k].id == id;
      assert r[k].id == id;
    }
  }

  /** Removing a note from a list with distinct ids removes exactly its id. */
  lemma {:induction false} RemoveAtIds(notes: seq<Note>, i: nat, bound: nat)
    requires i < |notes| && DistinctIds(notes) && IdsBelow(notes, bound)
    ensures DistinctIds(RemoveAt(notes, i)) && IdsBelow(RemoveAt(notes, i), bound)
    ensures forall id :: HasId(RemoveAt(notes, i), id) <==> HasId(notes, id) && id != notes[i].id
  {
    var r := RemoveAt(notes, i);
    forall id
      ensures HasId(r, id) <==> HasId(notes, id) && id != notes[i].id
    {
      if HasId(notes, id) && id != notes[i].id {
        var k :| 0 <= k < |notes| && notes[k].id == id;
        assert r[if k < i then k else k - 1].id == id;
      }
    }
  }

  // ---------------------------------------------------------------- edits

  /** The note a press on empty space creates. */
  function NewNote(id: nat, x: real, y: real, layers: Layers, beatWidth: real): (n: Note)
    requires beatWidth > 0.0
    ensures n.id == id && n.velocity == DefaultVelocity && n.width > 0.0
    ensures PitchToY(n.pitch) as real <= y < PitchToY(n.pitch) as real + NoteHeight as real
    ensures !layers.snap ==> n.x == x
    ensures layers.snap ==> IsMultiple(n.x, GridStep(beatWidth))
    ensures layers.snap ==> n.x - GridStep(beatWidth) / 2.0 <= x < n.x + GridStep(beatWidth) / 2.0
    ensures layers.discreteTime ==> n.width == GridStep(beatWidth)
    ensures !layers.discreteTime ==> n.width == 1.0
    ensures !layers.snap ==> Contains(n, x, y, layers)
  {
    var step := GridStep(beatWidth);
    Note(id,
         if layers.snap then Snap(x, step) else x,
         if layers.discreteTime then step else 1.0,
         YToPitch(y),
         DefaultVelocity)
  }

  /** A drag in 'new' or 'resize' mode: the right edge follows the pointer. */
  function Resized(n: Note, x: real, layers: Layers, beatWidth: real): (r: Note)
    requires beatWidth > 0.0
    ensures r.id == n.id && r.x == n.x && r.pitch == n.pitch && r.velocity == n.velocity
    ensures !layers.duration ==> r.width == n.width
    ensures layers.duration && !layers.discreteTime ==> r.width == Max(1.0, x - n.x)
    ensures layers.duration && !layers.discreteTime && x - n.x >= 1.0 ==> r.x + r.width == x
    ensures layers.duration && layers.discreteTime ==>
              r.width >= GridStep(beatWidth) && IsMultiple(r.width, GridStep(beatWidth))
    ensures layers.duration && layers.discreteTime && Max(1.0, x - n.x) < GridStep(beatWidth) / 2.0 ==>
              r.width == GridStep(beatWidth)
    ensures layers.duration && layers.discreteTime && Max(1.0, x - n.x) >= GridStep(beatWidth) / 2.0 ==>
              r.width - GridStep(beatWidth) / 2.0 <= Max(1.0, x - n.x) < r.width + GridStep(beatWidth) / 2.0
  {
    if !layers.duration then n
    else
      var w := Max(1.0, x - n.x);
      var step := GridStep(beatWidth);
      assert IsMultiple(step, step) by { assert step / step == 1.0; }
      if layers.discreteTime && w >= step / 2.0 then
        SnapAtLeastStep(w, step);
        n.(width := Max(step, Snap(w, step)))
      else
        n.(width := if layers.discreteTime then Max(step, Snap(w, step)) else w)
  }

  /** A width of at least half a grid step snaps to at least one step. */
  lemma SnapAtLeastStep(w: real, step: real)
    requires step > 0.0 && w >= step / 2.0
    ensures Snap(w, step) >= step
  {
    var n := Round(w / step);
    assert w / step >= 0.5;
    assert n >= 1;
    MultiplyBounds(1.0, n as real, n as real + 1.0, step);
    assert Snap(w, step) == n as real * step;
  }

  /** A drag in 'move' mode: the note's origin follows the pointer minus the
      offset taken at the press. */
  function Moved(n: Note, x: real, y: real, offsetX: real, offsetY: real, layers: Layers, beatWidth: real): (r: Note)
    requires beatWidth > 0.0
    ensures r.id == n.id && r.width == n.width && r.velocity == n.velocity
    ensures !layers.snap ==> r.x == x - offsetX
    ensures layers.snap ==> IsMultiple(r.x, GridStep(beatWidth))
    ensures layers.snap ==> r.x - GridStep(beatWidth) / 2.0 <= x - offsetX < r.x + GridStep(beatWidth) / 2.0
    ensures !layers.pitch ==> r.pitch == n.pitch
    ensures layers.pitch ==> PitchToY(r.pitch) as real <= y - offsetY < PitchToY(r.pitch) as real + NoteHeight as real
  {
    var step := GridStep(beatWidth);
    var newX := if layers.snap then Snap(x - offsetX, step) else x - offsetX;
    n.(x := newX, pitch := if layers.pitch then YToPitch(y - offsetY) else n.pitch)
  }

  /** Moving the pointer back to where a 'move' press grabbed the note leaves
      the note as it was (when the note is on the grid or snapping is off). */
  lemma {:induction false} MoveToPressPointKeepsNote(n: Note, px: real, py: real, layers: Layers, beatWidth: real)
    requires beatWidth > 0.0
    requires !layers.snap || IsMultiple(n.x, GridStep(beatWidth))
    ensures Moved(n, px, py, px - n.x, py - PitchToY(n.pitch) as real, layers, beatWidth) == n
  {
    YToPitchInverts(n.pitch, 0.0);
    if layers.snap {
      SnapOfMultiple(n.x, GridStep(beatWidth));
    }
  }

  /** The tempo handler's rescaling of one note. */
  function Rescaled(n: Note, scale: real): (r: Note)
    ensures r.id == n.id && r.pitch == n.pitch && r.velocity == n.velocity
    ensures r.x == n.x * scale && r.width == n.width * scale
  {
    n.(x := n.x * scale, width := n.width * scale)
  }

  /** A pixel value rescaled by newWidth / oldWidth is the same number of beats. */
  lemma ScaledBeats(v: real, oldBeatWidth: real, newBeatWidth: real)
    requires oldBeatWidth > 0.0 && newBeatWidth > 0.0
    ensures (v * (newBeatWidth / oldBeatWidth)) / newBeatWidth == v / oldBeatWidth
  {
  }

  /** Rescaling by newWidth / oldWidth keeps a note's position and width in beats. */
  lemma {:induction false} RescaleKeepsBeats(n: Note, oldBeatWidth: real, newBeatWidth: real)
    requires oldBeatWidth > 0.0 && newBeatWidth > 0.0
    ensures Rescaled(n, newBeatWidth / oldBeatWidth).x / newBeatWidth == n.x / oldBeatWidth
    ensures Rescaled(n, newBeatWidth / oldBeatWidth).width / newBeatWidth == n.width / oldBeatWidth
  {
  }

  /** A whole list rescaled by newWidth / oldWidth: same identities, same
      positions and widths in beats, widths still positive. */
  lemma {:induction false} RescaledList(notes: seq<Note>, r: seq<Note>, oldBeatWidth: real, newBeatWidth: real, bound: nat)
    requires oldBeatWidth > 0.0 && newBeatWidth > 0.0
    requires |r| == |notes|
    requires forall k :: 0 <= k < |notes| ==> r[k] == Rescaled(notes[k], newBeatWidth / oldBeatWidth)
    ensures forall k :: 0 <= k < |r| ==>
              r[k].x / newBeatWidth == notes[k].x / oldBeatWidth
              && r[k].width / newBeatWidth == notes[k].width / oldBeatWidth
    ensures (forall k :: 0 <= k < |notes| ==> notes[k].width > 0.0) ==> forall k :: 0 <= k < |r| ==> r[k].width > 0.0
    ensures DistinctIds(notes) ==> DistinctIds(r)
    ensures IdsBelow(notes, bound) ==> IdsBelow(r, bound)
    ensures forall id :: HasId(r, id) <==> HasId(notes, id)
  {
  }

  /** The loop of the tempo handler: every note rescaled in place, in order. */
  method RescaleAll(notes: seq<Note>, scale: real) returns (r: seq<Note>)
    ensures |r| == |notes|
    ensures forall k :: 0 <= k < |notes| ==> r[k] == Rescaled(notes[k], scale)
  {
    r := notes;
    var i := 0;
    while i < |r|
      invariant 0 <= i <= |r| == |notes|
      invariant forall k :: 0 <= k < i ==> r[k] == Rescaled(notes[k], scale)
      invariant forall k :: i <= k < |r| ==> r[k] == notes[k]
    {
      r := r[i := Rescaled(r[i], scale)];
      i := i + 1;
    }
  }

  // ---------------------------------------------------------------- sound

  /** How long a note sounds, in seconds. */
  function Duration(n: Note, layers: Layers): real
  {
    EffectiveWidth(n, layers) * TimePerPixel
  }

  /** The oscillator `playNotes` starts for `n` when playback starts at `now`. */
  function ToneFor(n: Note, layers: Layers, now: real): (t: Tone)
    ensures (t.start - now) / TimePerPixel == n.x
    ensures (t.stop - now) / TimePerPixel == n.x + EffectiveWidth(n, layers)
    ensures layers.pitch ==> t.pitch == n.pitch
    ensures !layers.pitch ==> t.pitch == DefaultPitch
    ensures layers.loudness ==> t.gain * MaxVelocity == n.velocity as real
    ensures !layers.loudness ==> t.gain * MaxVelocity == DefaultVelocity as real
    ensures 0 <= EffectiveVelocity(n, layers) <= 127 ==> 0.0 <= t.gain <= 1.0
  {
    var start := now + n.x * TimePerPixel;
    Tone(start, start + Duration(n, layers), EffectivePitch(n, layers),
         EffectiveVelocity(n, layers) as real / MaxVelocity)
  }

  /** The preview `auditionNote` plays, on the fresh preview context's clock,
      which starts at 0. */
  function AuditionTone(n: Note, layers: Layers): (t: Tone)
    ensures t == ToneFor(n.(x := 0.0), layers, 0.0)
    ensures t.start == 0.0 && t.stop / TimePerPixel == EffectiveWidth(n, layers)
  {
    Tone(0.0, Duration(n, layers), EffectivePitch(n, layers),
         EffectiveVelocity(n, layers) as real / MaxVelocity)
  }

  /** A preview sounds as the note does in playback: same pitch, gain and length. */
  lemma AuditionMatchesPlayback(n: Note, layers: Layers, now: real)
    ensures AuditionTone(n, layers).pitch == ToneFor(n, layers, now).pitch
    ensures AuditionTone(n, layers).gain == ToneFor(n, layers, now).gain
    ensures AuditionTone(n, layers).stop - AuditionTone(n, layers).start
            == ToneFor(n, layers, now).stop - ToneFor(n, layers, now).start
  {
  }

  /** Pixels are seconds at the fixed time-per-pixel, so when the beat width
      matches `tempo`, a note starts at its beat position times the seconds per
      beat and lasts its width in beats times the seconds per beat. */
  lemma {:induction false} ToneAtBeat(n: Note, layers: Layers, now: real, tempo: int)
    requires tempo > 0
    ensures ToneFor(n, layers, now).start == now + (n.x / BeatWidth(tempo)) * (60.0 / tempo as real)
    ensures ToneFor(n, layers, now).stop - ToneFor(n, layers, now).start
            == (EffectiveWidth(n, layers) / BeatWidth(tempo)) * (60.0 / tempo as real)
  {
  }

  /** After a tempo change from `oldTempo` to `newTempo`, playback starts a note
      at the beat it had before, timed at the new tempo. */
  lemma {:induction false} TempoChangeRetimesNote(n: Note, layers: Layers, now: real, oldTempo: int, newTempo: int)
    requires oldTempo > 0 && newTempo > 0
    ensures ToneFor(Rescaled(n, BeatWidth(newTempo) / BeatWidth(oldTempo)), layers, now).start
            == now + (n.x / BeatWidth(oldTempo)) * (60.0 / newTempo as real)
  {
  }

  /** The loop of `playNotes`: one tone per note, in list order, and the time
      the last one stops (never before `now`). */
  method ScheduleNotes(notes: seq<Note>, layers: Layers, now: real) returns (tones: seq<Tone>, endTime: real)
    ensures |tones| == |notes|
    ensures forall i :: 0 <= i < |notes| ==> tones[i] == ToneFor(notes[i], layers, now)
    ensures endTime >= now
    ensures forall i :: 0 <= i < |tones| ==> tones[i].stop <= endTime
    ensures endTime == now || exists i :: 0 <= i < |tones| && tones[i].stop == endTime
    ensures |notes| > 0 && (forall i :: 0 <= i < |notes| ==> notes[i].x >= 0.0 && EffectiveWidth(notes[i], layers) >= 0.0)
            ==> exists i :: 0 <= i < |tones| && tones[i].stop == endTime
  {
    tones := [];
    endTime := now;
    for i := 0 to |notes|
      invariant |tones| == i
      invariant forall k :: 0 <= k < i ==> tones[k] == ToneFor(notes[k], layers, now)
      invariant endTime >= now
      invariant forall k :: 0 <= k < i ==> tones[k].stop <= endTime
      invariant endTime == now || exists k :: 0 <= k < i && tones[k].stop == endTime
    {
      var t := ToneFor(notes[i], layers, now);
      tones := tones + [t];
      endTime := Max(endTime, t.stop);
    }
    if |notes| > 0 && (forall i :: 0 <= i < |notes| ==> notes[i].x >= 0.0 && EffectiveWidth(notes[i], layers) >= 0.0) {
      assert tones[0].stop >= now;
    }
  }

  // ---------------------------------------------------------------- preview

  /** The preview globals: the token of the live preview context (`auditionCtx`),
      if any, and the next token to hand out. */
  datatype AuditionState = AuditionState(live: Option<nat>, nextToken: nat)

  /** Every token handed out so far is below `nextToken`. */
  predicate AuditionOk(a: AuditionState)
  {
    a.live.Some? ==> a.live.value < a.nextToken
  }

  /** `auditionNote`: stop and close the live preview, if any, and start a new one. */
  function StartPreview(a: AuditionState): (b: AuditionState)
    requires AuditionOk(a)
    ensures AuditionOk(b) && b.live.Some? && b.live != a.live
    ensures b.live.value >= a.nextToken
  {
    AuditionState(Some(a.nextToken), a.nextToken + 1)
  }

  /** The `onended` callback of the preview with `token`: it forgets the live
      preview only if it is still that one. */
  function PreviewEnded(a: AuditionState, token: nat): (b: AuditionState)
    ensures AuditionOk(a) ==> AuditionOk(b)
    ensures b.nextToken == a.nextToken
    ensures b.live.None? || b.live == a.live
    ensures b.live == a.live <==> a.live != Some(token)
  {
    if a.live == Some(token) then a.(live := None) else a
  }

  /** The end of an older preview never clears the one that replaced it. */
  lemma StalePreviewEndIgnored(a: AuditionState, token: nat)
    requires AuditionOk(a) && token < a.nextToken
    ensures PreviewEnded(StartPreview(a), token) == StartPreview(a)
  {
  }

  /** The end of the live preview clears it. */
  lemma OwnPreviewEndClears(a: AuditionState)
    requires AuditionOk(a)
    ensures PreviewEnded(StartPreview(a), a.nextToken).live.None?
  {
  }
}
