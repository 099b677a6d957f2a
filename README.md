# Yt2Mid chord compiler, modelled in Dafny

Yt2Mid turns the chord timeline of a YouTube song into a one-track MIDI file.
The service delivers the timeline as text: one record per line, with fields
separated by `;` (beat in the bar, chord symbol, two unused fields). It also
delivers the bar length, the tempo and the detected key. This project models
the part of `main.py` that computes the MIDI messages:

- `key_to_midi`: the detected key as the MIDI pitch of its tonic, which fixes
  the transposition `root_key_midi - 60` (module `KeyResolver`, key_resolver.dfy);
- the `chord_mapping` table: 49 chord symbols and their fixed pitches (module
  `Vocabulary`, vocabulary.dfy);
- the bar/beat cursor of `generate_midi`, over the records from `split('\n')` and
  `split(';')` (module `Grid`, grid.dfy). It uses Python's `str.split` and
  `int()` as modelled in module `PyText` (pytext.dfy);
- the event emission itself (module `Compiler`, compiler.dfy). This is the
  method `GenerateMidi` with its `while` loop over bars. It calls `EmitBar` with
  its `for`-loop over beats and the append loops `AppendOnsets`,
  `AppendReleases` and `AppendRest`. Each method is proved equal to its own
  specification function: `GenerateMidi` to `Compile`, `EmitBar` to
  `AfterBar` of the bar's `Grid.ScanBar`, and the append loops to `Onsets`,
  `Releases` and `RestFiller`. The lemmas about the whole track are proved
  about `Compile`;
- `extract_video_id`: the leftmost regular-expression match in a URL (module
  `VideoId`, video_id.dfy).

The exceptions that stop `generate_midi` are modelled as values:

- `Err(IndexError)` when a bar reads past the last record (main.py:148);
- `Err(ValueError)` when `int()` rejects a beat field (main.py:152).

`GenerateMidi` and `Compile` require `Grid.BeatsWithinBar`: a bar length of at
least 1, and every well-formed record whose beat field is an integer names a
beat in `1..barLength`. When the bar length is below 1, or the cursor reaches a
well-formed record naming a beat outside the bar, the source loops for ever:
the lemma `Grid.CursorStalls` shows that such a bar leaves the cursor where it
was. The precondition also excludes some inputs on which the source stops,
because `int()` raises ValueError on an earlier record before the cursor
reaches the out-of-range one (see "## Left out").

Two behaviours of the loop are easy to misread and are modelled as the code
has them:

- A malformed record (field count other than 4) ends the bar without rests:
  the code `break`s (main.py:148-150), so the remaining beats of the bar emit
  nothing before the bar pad. See `Grid.ScanBarCutShort`.
- The chord text `1;C:maj;_;_` then `3;G7;_;_` with bar length 4 never rests
  at beat 4:
  - without a trailing newline, beat 4 reads a third record that does not
    exist and raises IndexError (`Scenarios.TwoChordsWithoutNewline`);
  - with a trailing newline, beat 4 meets the empty last line, which is
    malformed, and the bar ends there (`Scenarios.TwoChordsWithNewline`,
    and `Scenarios.TwoChordsTrack` for the events).

The compiler looks chords up in the table exactly as written, including the
two half-diminished entries that repeat the minor-seventh chords (see
"## Findings"). The corrected table, `Vocabulary.IntendedLookup`, stands
beside it with its own lemmas.

The examples module `Scenarios` (scenarios.dfy) works through these chord
texts concretely.

## Model

| member | source | states |
|---|---|---|
| KeyResolver.KeyToMidi | main.py:54-71 | the pitch of every key name, known or not, lies in 60..71 |
| KeyResolver.KeyToMidiIsSpelledPitch | main.py:56-71 | a key spelled as a natural letter, or a letter with `#`/`b` landing on a black key, gives 60 plus its pitch class; `N` and every other string give 60 |
| KeyResolver.EnharmonicSpellingsAgree | main.py:58-67 | two spellings of the same pitch class (`C#`/`Db`, `A#`/`Bb`, ...) give the same pitch |
| KeyResolver.UnknownKeyIsMiddleC | main.py:69-71 | `N` and any key outside the dictionary give 60, so no transposition |
| VideoId.Capture | main.py:8-9 | the group captured by a match is 11 characters, each from `[A-Za-z0-9_-]` |
| VideoId.SearchFrom | main.py:8 | a search from a position returns nothing or an 11-character identifier; `VideoId.SearchFromFindsLeftmost` and `VideoId.SearchFromMisses` tie it to the match positions |
| VideoId.SearchFromFindsLeftmost | main.py:8-9 | the search from a position returns the capture at the first matching position at or after it |
| VideoId.SearchFromMisses | main.py:8-9 | the search returns nothing when no position at or after its start matches |
| VideoId.ExtractVideoId | main.py:7-9 | `extract_video_id` returns `None` or an 11-character string drawn from `[A-Za-z0-9_-]` |
| VideoId.ExtractVideoIdIsLeftmostMatch | main.py:8-9 | when the pattern matches, the result is the 11 characters after `v=` or `/` at the leftmost matching position |
| VideoId.ExtractVideoIdNoneIffNoMatch | main.py:8-9 | the result is `None` exactly when `v=` or `/` followed by 11 identifier characters occurs nowhere in the URL |
| Vocabulary.ParseSymbolName | main.py:88-137 | every symbol name of the table reads back as its root and quality |
| Vocabulary.SymbolNameOfParse | main.py:88-137 | a string that reads as a root and quality is exactly that chord's symbol name |
| Vocabulary.ChordLookupDomain | main.py:88-137 | `chord_name in chord_mapping` holds exactly for the 49 names root letter C..B followed by `:maj`, `:min`, `7`, `maj7`, `dim`, `:min7` or `:min7b5` |
| Vocabulary.TriadsAsWritten | main.py:89-123 | every major, minor and diminished entry as written is its root in octave 4 stacked with the triad's intervals |
| Vocabulary.SeventhsAsWritten | main.py:103-135 | every dominant-7, major-7 and minor-7 entry, and the half-diminished entries C..G, as written are the interval stacks of their quality |
| Vocabulary.AsWrittenAgrees | main.py:88-135 | the table as written equals the interval-stack table on all entries except `A:min7b5` and `B:min7b5` |
| Vocabulary.AsWrittenWellVoiced | main.py:88-137 | every entry of the table as written, `A:min7b5` and `B:min7b5` included, has 3 or 4 pitches, strictly rising, all in 60..82 |
| Vocabulary.AsWrittenHalfDiminishedIsMinor7 | main.py:129-137 | as written, `A:min7b5` and `B:min7b5` are not half-diminished chords but copies of `A:min7` and `B:min7` |
| Vocabulary.HalfDiminishedCorrected | main.py:136-137 | in the corrected table `A:min7b5` is [69, 72, 75, 79] and `B:min7b5` is [71, 74, 77, 81], while `A:min7` and `B:min7` keep their written pitches |
| Vocabulary.IntendedWellVoiced | main.py:88-137 | every entry of the corrected table has 3 or 4 pitches, strictly rising, all in 60..82 |
| Vocabulary.ChordLookupWellVoiced | main.py:88-156 | every chord `chord_mapping` holds, as written, has 3 or 4 strictly rising pitches in 60..82 |
| PyText.Split | main.py:140 | `str.split` gives one more piece than there are separators, and no piece contains the separator |
| PyText.JoinSplit | main.py:140 | joining the pieces of `split` with the separator gives back the text |
| PyText.SplitJoin | main.py:140 | splitting a join of separator-free pieces gives back the pieces |
| PyText.SplitTrailingSeparator | main.py:140 | a text ending in the separator splits into pieces whose last one is empty |
| PyText.TrimStartDropsLeadingSpace | main.py:152 | `int()`'s stripping at the front removes exactly the leading white space |
| PyText.TrimEndDropsTrailingSpace | main.py:152 | `int()`'s stripping at the back removes exactly the trailing white space |
| PyText.Decimal | main.py:152 | the decimal numeral of a number is non-empty and made of digits only |
| PyText.DecimalValue | main.py:152 | the digits of a number's numeral parse back to the number |
| PyText.ParseRender | main.py:152 | `int(str(i)) == i` for every integer `i` |
| PyText.SeparatorIsNotSpace | main.py:152 | `int()` of a beat field starting with the separator `\x1c` raises ValueError: only tab, line feed, vertical tab, form feed, carriage return and space are skipped |
| PyText.ParseInt | main.py:152 | definition of `int()` on a beat field: white space stripped, an optional sign, one or more ASCII digits, otherwise no value (ValueError); `PyText.ParseRender` is its round trip |
| Grid.Records | main.py:140 | definition of the record list: the chord text split at `'\n'`, each line split at `';'`; `Grid.RecordsOfTwoLines`, `Grid.RecordsOfThreeLines` and `Grid.NoIndexErrorAfterTrailingNewline` are stated over it |
| Grid.RecordsOfTwoLines | main.py:140 | a text that splits into two lines gives exactly the two records those lines split into |
| Grid.RecordsOfThreeLines | main.py:140 | a text that splits into three lines gives exactly the three records those lines split into |
| Grid.ScanBar | main.py:146-165 | a bar that ends normally leaves the cursor between its start and the number of records |
| Grid.ScanBarAdvances | main.py:148-161 | a bar whose current record is malformed or names a later beat of the bar consumes at least one record |
| Grid.ScanBarFits | main.py:147 | a bar scanned from beat `j` decides at most `barLength - j` beats |
| Grid.ScanBarCutShort | main.py:147-150 | a bar decides fewer beats than remain exactly when it ended on a malformed record, which the cursor has consumed |
| Grid.ScanBarConsumesWellFormed | main.py:148-161 | every record a bar consumed, except possibly the last, is well-formed |
| Grid.GridFrom | main.py:146-168 | definition of the bars of the outer loop from a cursor position: one `ScanBar` per bar until the cursor reaches the end, or the first exception; it terminates because each bar consumes a record (`Grid.ScanBarAdvances`) |
| Grid.BarsOf | main.py:140-168 | definition of the bars of a whole run, from cursor 0; `Grid.BarsFit`, `Grid.GridPlaysEveryRecord` and `Grid.NoIndexErrorAfterMalformedLast` are stated over it |
| Grid.GridFromFits | main.py:146-147 | from any cursor position, every bar decides at most `barLength` beats |
| Grid.BarsFit | main.py:146-147 | every bar of the record list decides at most `barLength` beats |
| Grid.ScanBarPlaysConsumed | main.py:152-161 | the chord symbols a bar plays are those of the well-formed records it consumed, in order |
| Grid.GridFromPlaysRest | main.py:146-161 | from any cursor position, the bars play the symbols of all remaining well-formed records, in order |
| Grid.GridPlaysEveryRecord | main.py:140-161 | a run that completes plays the chord symbol of every well-formed record exactly once, in order |
| Grid.RestsFrom | main.py:152-165 | when the record under the cursor names no beat from `j+1` to `barLength`, every remaining beat is a rest and the cursor stays |
| Grid.CursorStalls | main.py:146-165 | with `barLength < 1`, or a well-formed record naming a beat outside the bar, the bar leaves the cursor where it was, so the outer loop never ends |
| Grid.ScanBarStopsAtLastMalformed | main.py:148-150 | when the last record is malformed, no bar reads past the end |
| Grid.GridFromStopsAtLastMalformed | main.py:146-150 | when the last record is malformed, the run from any cursor never raises IndexError |
| Grid.NoIndexErrorAfterMalformedLast | main.py:146-150 | when the last record is malformed, a run never raises IndexError |
| Grid.NoIndexErrorAfterTrailingNewline | main.py:140-150 | a chord text ending in a newline ends with the malformed record `[""]` and never raises IndexError |
| Grid.GridFromOneBeatBars | main.py:147-165 | with bar length 1, every beat decided from any cursor is a played record |
| Grid.BarLengthOneNeverRests | main.py:147-165 | with bar length 1, no bar contains a rest |
| Compiler.RestFiller | main.py:164-165 | definition of a rest's events: twelve `note_off`s of pitches 60..71 in ascending order, velocity 0, delta one note duration |
| Compiler.BarPad | main.py:168 | definition of the bar's closing event: `note_off` of pitch 60, velocity 0, delta one note duration |
| Compiler.BeatEvents | main.py:152-165 | definition of a beat's events: a rest gives `RestFiller`; a played symbol of `chord_mapping` gives its pitches transposed by the key as `note_on`s then `note_off`s; an unknown symbol gives none; its properties are `Compiler.PlayedBeatEvents` and `Compiler.BeatsEventsEmitNotes` |
| Compiler.Compile | main.py:82-168 | definition of the whole track: the `set_tempo` event and then, bar after bar, each bar's beat events and pad, or the exception the run raises; `Compiler.GenerateMidi` is proved equal to it and `Compiler.CompileEmitsNotes` states its shape |
| Compiler.ScanBeat | main.py:147-165 | one beat step of a bar: past the last record IndexError; a malformed record ends the bar and is consumed; a rejected beat field ValueError; a record naming this beat plays and is consumed; any other record gives a rest and stays |
| Compiler.ScanDone | main.py:147 | after the last beat the bar ends with the beats decided and the cursor where it is |
| Compiler.AppendOnsets | main.py:157-158 | the track grows by one `note_on` per pitch, velocity 64, delta 0, in order |
| Compiler.AppendReleases | main.py:159-160 | the track grows by one `note_off` per pitch, velocity 64, delta one note duration, in order |
| Compiler.AppendChord | main.py:154-160 | the track grows by the events of a played beat: the transposed table pitches as onsets then releases, or nothing for an unknown symbol |
| Compiler.AppendRest | main.py:164-165 | the track grows by the twelve `note_off`s of pitches 60..71, velocity 0, delta one note duration |
| Compiler.EmitBar | main.py:147-168 | one bar appends the events of its beats and the bar pad, and returns the new cursor, or stops with the exception of that bar |
| Compiler.BarCompletes | main.py:146-168 | a completed bar consumes at least one record and hands the rest of the grid to the next bar |
| Compiler.BarAppended | main.py:146-168 | after a bar, the loop's track is the tempo event followed by the events of all bars so far, and the cursor has advanced |
| Compiler.TrackComplete | main.py:146-168 | when the cursor reaches the end, the track is the whole compiled track |
| Compiler.GenerateMidi | main.py:82-168 | the loop builds exactly the compiled track, or stops with IndexError or ValueError exactly when the compiled run does |
| Compiler.BeatsEventsEmitNotes | main.py:154-165 | every event of a sequence of beats is a note event of pitch 60..93 with the compiler's velocity and delta |
| Compiler.TrackEventsEmitNotes | main.py:146-168 | every event of the bars, pads included, is a note event of pitch 60..93, so inside MIDI's 0..127 |
| Compiler.TempoThenNotes | main.py:82 | a track of one tempo event followed by note events starts with that tempo event and has no other tempo event |
| Compiler.CompileEmitsNotes | main.py:82-168 | a compiled track begins with its single `set_tempo`, and every later event is a note event of pitch 60..93 with delta 0 (onsets) or one note duration |
| Compiler.PlayedBeatEvents | main.py:144-160 | a played known chord emits its table pitches shifted by `key_to_midi(key) - 60` as `note_on`s (velocity 64, delta 0), then the same pitches as `note_off`s (velocity 64, delta `(480 * barLength) // 4`); an unknown chord emits nothing |
| Scenarios.TwoChordsWithNewline | main.py:140-168 | `1;C:maj;_;_` and `3;G7;_;_` with a trailing newline and bar length 4 give one bar: C:maj, a rest, G7, then the bar ends on the empty line |
| Scenarios.TwoChordsWithoutNewline | main.py:140-168 | the same two lines without a trailing newline raise IndexError at beat 4 |
| Scenarios.TwoChordsTrack | main.py:82-168 | the text with the trailing newline, key `C` and bar length 4 compiles to the tempo event, `note_on` 60, 64, 67 then their `note_off`s at velocity 64 and delta 480, the twelve rest `note_off`s of pitches 60..71, `note_on` 67, 71, 74, 77 then their `note_off`s, and the bar pad `note_off` 60 at velocity 0 |
| Scenarios.KeyOfC | main.py:57 | the key `C` resolves to 60, so no transposition |

## Left out

- The HTTP requests of `get_video_info` and `get_chord_info` (main.py:12-51). They are network I/O. Their results (chord text, bar length, tempo, key) are the inputs of `Compiler.GenerateMidi`.
- `mido.bpm2tempo` (main.py:81) is a library computation with floating point. The tempo in microseconds per beat is a parameter.
- `MidiFile`, `MidiTrack` and `midi.save` (main.py:75-77, 170-172). The mido library serialises and writes the file, and its code is not part of this model. The track is a sequence of `Compiler.Event` values.
- The output file name, the console messages and the `__main__` block (main.py:170-189). These are user input and console I/O.
- Compiler.GenerateMidi: its precondition `Grid.BeatsWithinBar` excludes every input with a well-formed record naming a beat outside `1..barLength`. The source loops for ever on those where the cursor reaches that record (`Grid.CursorStalls`). It stops with ValueError where `int()` rejects the beat field of an earlier record first, for example `x;C:maj;_;_` then `9;G7;_;_` with bar length 4. That terminating case is not modelled.
- PyText.ParseInt: covers an optional sign, ASCII digits and the ASCII white space `int()` skips (tab, line feed, vertical tab, form feed, carriage return, space). Not modelled: `int()` also accepts underscores between digits, non-ASCII digits and non-ASCII white space. Since Python 3.11 it also raises ValueError on a numeral of more than 4300 digits, which the model parses.
- Compiler.GenerateMidi: its contract is equality with `Compiler.Compile`. The tempo-first and note-range properties are proved once about `Compile`, in `Compiler.CompileEmitsNotes`, rather than repeated on the method.
- Regular-expression backtracking in `extract_video_id` is not modelled as such. `VideoId.ExtractVideoId` searches start positions from left to right, which is what `re.search` returns for this pattern.

## Findings

| source | as written | input that shows it | evidently intended | confidence | as-written member | corrected member |
|---|---|---|---|---|---|---|
| main.py:136-137 | `A:min7b5` is [69, 72, 76, 79] and `B:min7b5` is [71, 74, 78, 81], the same pitches as `A:min7` and `B:min7` (a perfect fifth) | chord symbol `A:min7b5` (or `B:min7b5`) at a matched beat | a diminished fifth, as in the other five `:min7b5` entries: [69, 72, 75, 79] (A C Eb G) and [71, 74, 77, 81] (B D F A) | not executed | Vocabulary.AsWrittenHalfDiminishedIsMinor7 | Vocabulary.HalfDiminishedCorrected |
