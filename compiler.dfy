/**
 * The event compiler of `generate_midi`: one `set_tempo` meta event, then
 * for every bar the events of its beats and a closing `note_off`.
 */
module Compiler {
  import opened Outcomes
  import opened KeyResolver
  import opened Vocabulary
  import opened Grid

  /** The messages appended to the MIDI track. `time` is the delta in ticks since the previous event. */
  datatype Event =
    | SetTempo(tempo: int)
    | NoteOn(note: int, velocity: int, time: int)
    | NoteOff(note: int, velocity: int, time: int)

  /** Ticks per quarter note of the MIDI file. */
  const TicksPerBeat: int := 480

  /** `note_duration = (480 * barLength) // 4`, the delta used by every sounding and resting beat. */
  function NoteDuration(barLength: int): int {
    (TicksPerBeat * barLength) / 4
  }

  /** `[note + shift for note in ps]`. */
  function Transpose(ps: seq<int>, shift: int): seq<int> {
    seq(|ps|, k requires 0 <= k < |ps| => ps[k] + shift)
  }

  /** All notes start together: one `note_on` per pitch at velocity 64 and delta 0. */
  function Onsets(notes: seq<int>): seq<Event> {
    seq(|notes|, k requires 0 <= k < |notes| => NoteOn(notes[k], 64, 0))
  }

  /** Then one `note_off` per pitch at velocity 64, each a note duration after the previous event. */
  function Releases(notes: seq<int>, duration: int): seq<Event> {
    seq(|notes|, k requires 0 <= k < |notes| => NoteOff(notes[k], 64, duration))
  }

  /** The rest filler: `note_off` at velocity 0 for each pitch 60..71. */
  function RestFiller(duration: int): seq<Event> {
    seq(12, k requires 0 <= k < 12 => NoteOff(60 + k, 0, duration))
  }

  /** The `note_off` that closes every bar. */
  function BarPad(duration: int): Event {
    NoteOff(60, 0, duration)
  }

  /** The events of one beat; a chord symbol missing from the table gives none. */
  function BeatEvents(b: Beat, shift: int, duration: int): seq<Event> {
    match b
    case Rest => RestFiller(duration)
    case Play(symbol) =>
      match ChordLookup(symbol)
      case None => []
      case Some(ps) =>
        var notes := Transpose(ps, shift);
        Onsets(notes) + Releases(notes, duration)
  }

  function BeatsEvents(beats: seq<Beat>, shift: int, duration: int): seq<Event> {
    if beats == [] then []
    else BeatsEvents(beats[..|beats| - 1], shift, duration) + BeatEvents(beats[|beats| - 1], shift, duration)
  }

  function BarEvents(bar: seq<Beat>, shift: int, duration: int): seq<Event> {
    BeatsEvents(bar, shift, duration) + [BarPad(duration)]
  }

  function TrackEvents(bars: seq<seq<Beat>>, shift: int, duration: int): seq<Event> {
    if bars == [] then []
    else TrackEvents(bars[..|bars| - 1], shift, duration) + BarEvents(bars[|bars| - 1], shift, duration)
  }

  /**
   * The track `generate_midi` builds, or the exception that stops it. `tempo`
   * is the microseconds-per-beat value `mido.bpm2tempo` computes from the BPM.
   */
  function Compile(chords: seq<Record>, barLength: int, key: string, tempo: int): Result<seq<Event>>
    requires BeatsWithinBar(chords, barLength)
  {
    match BarsOf(chords, barLength)
    case Err(e) => Err(e)
    case Ok(bars) => Ok([SetTempo(tempo)] + TrackEvents(bars, KeyToMidi(key) - 60, NoteDuration(barLength)))
  }

  /**
   * A note event as the compiler emits it: pitch in 60..93 (a table pitch of
   * 60..82 raised by at most 11), a `note_on` at velocity 64 and delta 0, or
   * a `note_off` at velocity 0 or 64 and delta one note duration.
   */
  predicate EmittedNote(e: Event, duration: int) {
    match e
    case SetTempo(_) => false
    case NoteOn(note, velocity, time) => 60 <= note <= 93 && velocity == 64 && time == 0
    case NoteOff(note, velocity, time) => 60 <= note <= 93 && (velocity == 0 || velocity == 64) && time == duration
  }

  // ---------------------------------------------------------------------
  // generate_midi
  // ---------------------------------------------------------------------

  function PrependBars(bars: seq<seq<Beat>>, r: Result<seq<seq<Beat>>>): Result<seq<seq<Beat>>> {
    match r
    case Ok(rest) => Ok(bars + rest)
    case Err(e) => Err(e)
  }

  function PrependBeats(beats: seq<Beat>, r: Result<(seq<Beat>, nat)>): Result<(seq<Beat>, nat)> {
    match r
    case Ok((rest, k)) => Ok((beats + rest, k))
    case Err(e) => Err(e)
  }

  lemma PrependBeatsSnoc(beats: seq<Beat>, b: Beat, r: Result<(seq<Beat>, nat)>)
    ensures PrependBeats(beats, PrependBeat(b, r)) == PrependBeats(beats + [b], r)
  {
    match r
    case Ok((rest, k)) => assert beats + ([b] + rest) == (beats + [b]) + rest;
    case Err(_) =>
  }

  lemma PrependBarsSnoc(bars: seq<seq<Beat>>, bar: seq<Beat>, r: Result<seq<seq<Beat>>>)
    ensures PrependBars(bars, PrependBar(bar, r)) == PrependBars(bars + [bar], r)
  {
    match r
    case Ok(rest) => assert bars + ([bar] + rest) == (bars + [bar]) + rest;
    case Err(_) =>
  }

  lemma BeatsEventsSnoc(beats: seq<Beat>, b: Beat, shift: int, duration: int)
    ensures BeatsEvents(beats + [b], shift, duration) == BeatsEvents(beats, shift, duration) + BeatEvents(b, shift, duration)
  {
    assert (beats + [b])[..|beats|] == beats;
  }

  lemma TrackEventsSnoc(bars: seq<seq<Beat>>, bar: seq<Beat>, shift: int, duration: int)
    ensures TrackEvents(bars + [bar], shift, duration) == TrackEvents(bars, shift, duration) + BarEvents(bar, shift, duration)
  {
    assert (bars + [bar])[..|bars|] == bars;
  }

  /** Appending one more beat's events to a bar's track. */
  lemma BeatStep(track: seq<Event>, beats: seq<Beat>, b: Beat, shift: int, duration: int)
    ensures (track + BeatsEvents(beats, shift, duration)) + BeatEvents(b, shift, duration)
            == track + BeatsEvents(beats + [b], shift, duration)
  {
    BeatsEventsSnoc(beats, b, shift, duration);
    AppendAssoc(track, BeatsEvents(beats, shift, duration), BeatEvents(b, shift, duration));
  }

  /** Closing a bar with its pad. */
  lemma BarStep(track: seq<Event>, beats: seq<Beat>, shift: int, duration: int)
    ensures (track + BeatsEvents(beats, shift, duration)) + [BarPad(duration)]
            == track + BarEvents(beats, shift, duration)
  {
    AppendAssoc(track, BeatsEvents(beats, shift, duration), [BarPad(duration)]);
  }

  lemma AppendAssoc(a: seq<Event>, b: seq<Event>, c: seq<Event>)
    ensures (a + b) + c == a + (b + c)
  {
  }

  /** A bar that ends normally moves the cursor forward and adds its beats to the bars. */
  lemma BarCompletes(chords: seq<Record>, barLength: int, bars: seq<seq<Beat>>, barStart: nat,
                     beats: seq<Beat>, k: nat)
    requires BeatsWithinBar(chords, barLength) && barStart < |chords| && k <= |chords|
    requires BarsOf(chords, barLength) == PrependBars(bars, GridFrom(chords, barStart, barLength))
    requires ScanBar(chords, barStart, 0, barLength) == Ok((beats, k))
    ensures barStart < k
    ensures BarsOf(chords, barLength) == PrependBars(bars + [beats], GridFrom(chords, k, barLength))
  {
    assert DueAfter(chords[barStart], 0, barLength);
    ScanBarAdvances(chords, barStart, 0, barLength);
    PrependBarsSnoc(bars, beats, GridFrom(chords, k, barLength));
  }

  /**
   * One beat of the bar, with the cursor at record `cursor`: the scan from
   * `i` stops with IndexError or ValueError, ends at a malformed record, or
   * goes on with one more played or resting beat.
   */
  lemma ScanBeat(chords: seq<Record>, i: nat, cursor: nat, j: nat, barLength: int, beats: seq<Beat>)
    requires i <= cursor <= |chords| && j < barLength
    requires ScanBar(chords, i, 0, barLength) == PrependBeats(beats, ScanBar(chords, cursor, j, barLength))
    ensures cursor == |chords| ==> ScanBar(chords, i, 0, barLength) == Err(IndexError)
    ensures cursor < |chords| && !WellFormed(chords[cursor]) ==>
              ScanBar(chords, i, 0, barLength).Ok?
              && ScanBar(chords, i, 0, barLength).value.0 == beats
              && ScanBar(chords, i, 0, barLength).value.1 == cursor + 1
    ensures cursor < |chords| && WellFormed(chords[cursor]) && PyText.ParseInt(chords[cursor][0]).None? ==>
              ScanBar(chords, i, 0, barLength) == Err(ValueError)
    ensures cursor < |chords| && WellFormed(chords[cursor]) && PyText.ParseInt(chords[cursor][0]) == Some(j + 1) ==>
              ScanBar(chords, i, 0, barLength)
              == PrependBeats(beats + [Play(chords[cursor][1])], ScanBar(chords, cursor + 1, j + 1, barLength))
    ensures cursor < |chords| && WellFormed(chords[cursor]) && PyText.ParseInt(chords[cursor][0]).Some?
            && PyText.ParseInt(chords[cursor][0]).value != j + 1 ==>
              ScanBar(chords, i, 0, barLength) == PrependBeats(beats + [Rest], ScanBar(chords, cursor, j + 1, barLength))
  {
    if cursor < |chords| && !WellFormed(chords[cursor]) {
      assert beats + [] == beats;
    } else if cursor < |chords| && PyText.ParseInt(chords[cursor][0]).Some? {
      if PyText.ParseInt(chords[cursor][0]).value == j + 1 {
        var b := Play(chords[cursor][1]);
        assert ScanBar(chords, cursor, j, barLength) == PrependBeat(b, ScanBar(chords, cursor + 1, j + 1, barLength));
        PrependBeatsSnoc(beats, b, ScanBar(chords, cursor + 1, j + 1, barLength));
      } else {
        assert ScanBar(chords, cursor, j, barLength) == PrependBeat(Rest, ScanBar(chords, cursor, j + 1, barLength));
        PrependBeatsSnoc(beats, Rest, ScanBar(chords, cursor, j + 1, barLength));
      }
    }
  }

  /** All beats of the bar scanned: the scan from `i` is the beats so far, the cursor where it is. */
  lemma ScanDone(chords: seq<Record>, i: nat, cursor: nat, j: nat, barLength: int, beats: seq<Beat>)
    requires i <= cursor <= |chords| && barLength <= j
    requires ScanBar(chords, i, 0, barLength) == PrependBeats(beats, ScanBar(chords, cursor, j, barLength))
    ensures ScanBar(chords, i, 0, barLength) == Ok((beats, cursor))
  {
    assert beats + [] == beats;
  }

  /** The track after one bar: the beats' events and the closing pad, or the exception that stopped the bar. */
  function AfterBar(track: seq<Event>, r: Result<(seq<Beat>, nat)>, shift: int, duration: int)
    : Result<(seq<Event>, nat)>
  {
    match r
    case Err(e) => Err(e)
    case Ok((beats, k)) => Ok((track + BarEvents(beats, shift, duration), k))
  }

  /** `for note in notes: track.append(note_on)`. */
  method AppendOnsets(track: seq<Event>, notes: seq<int>) returns (out: seq<Event>)
    ensures out == track + Onsets(notes)
  {
    out := track;
    for k := 0 to |notes|
      invariant out == track + Onsets(notes[..k])
    {
      out := out + [NoteOn(notes[k], 64, 0)];
      assert notes[..k + 1] == notes[..k] + [notes[k]];
    }
    assert notes[..|notes|] == notes;
  }

  /** `for note in notes: track.append(note_off)`. */
  method AppendReleases(track: seq<Event>, notes: seq<int>, noteDuration: int) returns (out: seq<Event>)
    ensures out == track + Releases(notes, noteDuration)
  {
    out := track;
    for k := 0 to |notes|
      invariant out == track + Releases(notes[..k], noteDuration)
    {
      out := out + [NoteOff(notes[k], 64, noteDuration)];
      assert notes[..k + 1] == notes[..k] + [notes[k]];
    }
    assert notes[..|notes|] == notes;
  }

  /** A played beat: if the symbol is in the table, its `note_on`s, then its `note_off`s. */
  method AppendChord(track: seq<Event>, chordName: string, shift: int, noteDuration: int)
    returns (out: seq<Event>)
    ensures out == track + BeatEvents(Play(chordName), shift, noteDuration)
  {
    out := track;
    var voicing := ChordLookup(chordName);
    if voicing.Some? {
      var notes := Transpose(voicing.value, shift);
      out := AppendOnsets(out, notes);
      out := AppendReleases(out, notes, noteDuration);
      AppendAssoc(track, Onsets(notes), Releases(notes, noteDuration));
    }
  }

  /** The inner loop of a rest: `note_off` at velocity 0 for pitches 60..71. */
  method AppendRest(track: seq<Event>, noteDuration: int) returns (out: seq<Event>)
    ensures out == track + RestFiller(noteDuration)
  {
    out := track;
    for note := 60 to 72
      invariant out == track + RestFiller(noteDuration)[..note - 60]
    {
      out := out + [NoteOff(note, 0, noteDuration)];
    }
  }

  /**
   * One pass of the `while` body of `generate_midi`: the beats of one bar,
   * starting with the cursor at record `i`, then the closing `note_off`.
   * Returns the grown track and the cursor, or the exception raised.
   */
  method EmitBar(chords: seq<Record>, i: nat, barLength: int, shift: int, noteDuration: int, track: seq<Event>)
    returns (out: Result<(seq<Event>, nat)>)
    requires i < |chords|
    ensures out == AfterBar(track, ScanBar(chords, i, 0, barLength), shift, noteDuration)
  {
    var cursor := i;
    var events := track;
    ghost var beats: seq<Beat> := [];
    assert ScanBar(chords, i, 0, barLength) == PrependBeats(beats, ScanBar(chords, cursor, 0, barLength)) by {
      match ScanBar(chords, i, 0, barLength)
      case Ok((rest, k)) => assert beats + rest == rest;
      case Err(_) =>
    }
    var j := 0;
    while j < barLength
      invariant i <= cursor <= |chords|
      invariant ScanBar(chords, i, 0, barLength) == PrependBeats(beats, ScanBar(chords, cursor, j, barLength))
      invariant events == track + BeatsEvents(beats, shift, noteDuration)
      decreases barLength - j
    {
      ScanBeat(chords, i, cursor, j, barLength, beats);
      if cursor == |chords| {
        return Err(IndexError);
      }
      if |chords[cursor]| != 4 {
        cursor := cursor + 1;
        break;
      }
      var beat := PyText.ParseInt(chords[cursor][0]);
      if beat.None? {
        return Err(ValueError);
      }
      if beat.value == j + 1 {
        var chordName := chords[cursor][1];
        events := AppendChord(events, chordName, shift, noteDuration);
        BeatStep(track, beats, Play(chordName), shift, noteDuration);
        beats := beats + [Play(chordName)];
        cursor := cursor + 1;
      } else {
        events := AppendRest(events, noteDuration);
        BeatStep(track, beats, Rest, shift, noteDuration);
        beats := beats + [Rest];
      }
      j := j + 1;
    }
    if barLength <= j {
      ScanDone(chords, i, cursor, j, barLength, beats);
    }
    BarStep(track, beats, shift, noteDuration);
    events := events + [BarPad(noteDuration)];
    return Ok((events, cursor));
  }

  /** After a bar that ends normally, the loop invariant of `GenerateMidi` holds with that bar added. */
  lemma BarAppended(chords: seq<Record>, barLength: int, bars: seq<seq<Beat>>, i: nat,
                    shift: int, duration: int, tempo: int, track: seq<Event>, outcome: Result<(seq<Event>, nat)>)
    returns (beats: seq<Beat>)
    requires BeatsWithinBar(chords, barLength) && i < |chords|
    requires BarsOf(chords, barLength) == PrependBars(bars, GridFrom(chords, i, barLength))
    requires track == [SetTempo(tempo)] + TrackEvents(bars, shift, duration)
    requires outcome == AfterBar(track, ScanBar(chords, i, 0, barLength), shift, duration) && outcome.Ok?
    ensures i < outcome.value.1 <= |chords|
    ensures BarsOf(chords, barLength) == PrependBars(bars + [beats], GridFrom(chords, outcome.value.1, barLength))
    ensures outcome.value.0 == [SetTempo(tempo)] + TrackEvents(bars + [beats], shift, duration)
  {
    beats := ScanBar(chords, i, 0, barLength).value.0;
    var k := outcome.value.1;
    BarCompletes(chords, barLength, bars, i, beats, k);
    AppendAssoc([SetTempo(tempo)], TrackEvents(bars, shift, duration), BarEvents(beats, shift, duration));
    TrackEventsSnoc(bars, beats, shift, duration);
  }

  /** When the cursor has passed the last record, the track is the compiled piece. */
  lemma TrackComplete(chords: seq<Record>, barLength: int, bars: seq<seq<Beat>>, key: string, tempo: int,
                      track: seq<Event>)
    requires BeatsWithinBar(chords, barLength)
    requires BarsOf(chords, barLength) == PrependBars(bars, GridFrom(chords, |chords|, barLength))
    requires track == [SetTempo(tempo)] + TrackEvents(bars, KeyToMidi(key) - 60, NoteDuration(barLength))
    ensures Compile(chords, barLength, key, tempo) == Ok(track)
  {
    assert GridFrom(chords, |chords|, barLength) == Ok([]);
    assert bars + [] == bars;
  }

  /**
   * The loop of `generate_midi`: split the chord text into records, then, bar
   * after bar while records remain, walk the beats of the bar over the
   * records, appending each beat's events to the track, and close the bar.
   */
  method GenerateMidi(chordText: string, barLength: int, key: string, tempo: int) returns (r: Result<seq<Event>>)
    requires BeatsWithinBar(Records(chordText), barLength)
    ensures r == Compile(Records(chordText), barLength, key, tempo)
  {
    var track: seq<Event> := [SetTempo(tempo)];
    var rootKeyMidi := KeyToMidi(key);
    var chords := Records(chordText);
    var i := 0;
    var noteDuration := (480 * barLength) / 4;
    assert noteDuration == NoteDuration(barLength);
    var shift := rootKeyMidi - 60;
    ghost var bars: seq<seq<Beat>> := [];
    assert BarsOf(chords, barLength) == PrependBars(bars, GridFrom(chords, i, barLength)) by {
      match GridFrom(chords, 0, barLength)
      case Ok(rest) => assert bars + rest == rest;
      case Err(_) =>
    }
    while i < |chords|
      invariant i <= |chords|
      invariant BarsOf(chords, barLength) == PrependBars(bars, GridFrom(chords, i, barLength))
      invariant track == [SetTempo(tempo)] + TrackEvents(bars, shift, noteDuration)
      decreases |chords| - i
    {
      var outcome := EmitBar(chords, i, barLength, shift, noteDuration, track);
      if outcome.Err? {
        assert BarsOf(chords, barLength) == Err(outcome.error);
        return Err(outcome.error);
      }
      ghost var beats := BarAppended(chords, barLength, bars, i, shift, noteDuration, tempo, track, outcome);
      track := outcome.value.0;
      bars := bars + [beats];
      i := outcome.value.1;
    }
    assert i == |chords|;
    TrackComplete(chords, barLength, bars, key, tempo, track);
    r := Ok(track);
  }

  // ---------------------------------------------------------------------
  // Properties of the compiled track
  // ---------------------------------------------------------------------

  lemma {:induction false} BeatsEventsEmitNotes(beats: seq<Beat>, shift: int, duration: int)
    requires 0 <= shift <= 11
    ensures forall e :: e in BeatsEvents(beats, shift, duration) ==> EmittedNote(e, duration)
    decreases |beats|
  {
    if beats != [] {
      BeatsEventsEmitNotes(beats[..|beats| - 1], shift, duration);
      var b := beats[|beats| - 1];
      if b.Play? {
        ChordLookupWellVoiced(b.symbol);
      }
    }
  }

  lemma {:induction false} TrackEventsEmitNotes(bars: seq<seq<Beat>>, shift: int, duration: int)
    requires 0 <= shift <= 11
    ensures forall e :: e in TrackEvents(bars, shift, duration) ==> EmittedNote(e, duration)
    decreases |bars|
  {
    if bars != [] {
      TrackEventsEmitNotes(bars[..|bars| - 1], shift, duration);
      BeatsEventsEmitNotes(bars[|bars| - 1], shift, duration);
    }
  }

  lemma TempoThenNotes(track: seq<Event>, tempo: int, events: seq<Event>, duration: int)
    requires track == [SetTempo(tempo)] + events
    requires forall e :: e in events ==> EmittedNote(e, duration)
    ensures track[0] == SetTempo(tempo)
    ensures forall k :: 1 <= k < |track| ==> EmittedNote(track[k], duration)
  {
    forall k | 1 <= k < |track|
      ensures EmittedNote(track[k], duration)
    {
      assert track[k] == events[k - 1];
    }
  }

  /**
   * The track opens with its only `set_tempo` event; every later event is a
   * note event with a MIDI pitch in 60..93, velocity 64 on and 0 or 64 off,
   * and delta 0 on and one note duration off.
   */
  lemma CompileEmitsNotes(chords: seq<Record>, barLength: int, key: string, tempo: int)
    requires BeatsWithinBar(chords, barLength) && Compile(chords, barLength, key, tempo).Ok?
    ensures Compile(chords, barLength, key, tempo).value[0] == SetTempo(tempo)
    ensures forall k :: 1 <= k < |Compile(chords, barLength, key, tempo).value|
              ==> EmittedNote(Compile(chords, barLength, key, tempo).value[k], NoteDuration(barLength))
  {
    var duration := NoteDuration(barLength);
    var events := TrackEvents(BarsOf(chords, barLength).value, KeyToMidi(key) - 60, duration);
    TrackEventsEmitNotes(BarsOf(chords, barLength).value, KeyToMidi(key) - 60, duration);
    TempoThenNotes(Compile(chords, barLength, key, tempo).value, tempo, events, duration);
  }

  /**
   * A beat that plays a symbol of the table emits a `note_on` for each table
   * pitch raised by `key_to_midi(key) - 60`, in table order, then the
   * `note_off`s of the same pitches; a symbol outside the table emits nothing.
   */
  lemma PlayedBeatEvents(symbol: string, key: string, barLength: int)
    ensures ChordLookup(symbol).None? ==> BeatEvents(Play(symbol), KeyToMidi(key) - 60, NoteDuration(barLength)) == []
    ensures ChordLookup(symbol).Some? ==>
              var ps := ChordLookup(symbol).value;
              var events := BeatEvents(Play(symbol), KeyToMidi(key) - 60, NoteDuration(barLength));
              |events| == 2 * |ps|
              && (forall k :: 0 <= k < |ps| ==> events[k] == NoteOn(ps[k] + KeyToMidi(key) - 60, 64, 0))
              && (forall k :: 0 <= k < |ps| ==>
                    events[|ps| + k] == NoteOff(ps[k] + KeyToMidi(key) - 60, 64, NoteDuration(barLength)))
  {
    if ChordLookup(symbol).Some? {
      var ps := ChordLookup(symbol).value;
      var notes := Transpose(ps, KeyToMidi(key) - 60);
      var events := BeatEvents(Play(symbol), KeyToMidi(key) - 60, NoteDuration(barLength));
      assert events == Onsets(notes) + Releases(notes, NoteDuration(barLength));
    }
  }
}
