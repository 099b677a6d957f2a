/**
 * Two concrete chord texts, the same two records with and without a final
 * newline, run through the bar/beat cursor with four beats per bar, and the
 * track compiled from the first in the key of C.
 */
module Scenarios {
  import opened Outcomes
  import opened PyText
  import opened Grid
  import opened KeyResolver
  import opened Vocabulary
  import opened Compiler

  const FirstLine: string := "1;C:maj;_;_"
  const SecondLine: string := "3;G7;_;_"
  /** The chord text with a final newline. */
  const WithNewline: string := FirstLine + "\n" + SecondLine + "\n"
  /** The same chord text without it. */
  const WithoutNewline: string := FirstLine + "\n" + SecondLine

  const First: Record := ["1", "C:maj", "_", "_"]
  const Second: Record := ["3", "G7", "_", "_"]

  lemma SplitFirst()
    ensures Split(FirstLine, ';') == First
  {
    assert Join(["_", "_"], ';') == "_;_";
    assert Join(["C:maj", "_", "_"], ';') == "C:maj;_;_";
    assert Join(First, ';') == FirstLine;
    SplitJoin(First, ';');
  }

  lemma SplitSecond()
    ensures Split(SecondLine, ';') == Second
  {
    assert Join(["_", "_"], ';') == "_;_";
    assert Join(["G7", "_", "_"], ';') == "G7;_;_";
    assert Join(Second, ';') == SecondLine;
    SplitJoin(Second, ';');
  }

  /** `int()` of a single decimal digit is that digit. */
  lemma ParseSingleDigit(c: char)
    requires IsDigit(c)
    ensures ParseInt([c]) == Some(c as int - '0' as int)
  {
    assert TrimStart([c]) == [c];
    assert TrimEnd([c]) == [c];
    assert ParseDigits([c]) == Some(c as int - '0' as int);
  }

  lemma BeatFields()
    ensures ParseInt(First[0]) == Some(1) && ParseInt(Second[0]) == Some(3)
  {
    assert First[0] == ['1'];
    ParseSingleDigit('1');
    assert Second[0] == ['3'];
    ParseSingleDigit('3');
  }

  /** Records past the first two are malformed, so only beats 1 and 3 are named. */
  lemma BeatsOfTwoChords(chords: seq<Record>)
    requires |chords| >= 2 && chords[0] == First && chords[1] == Second
    requires forall m :: 2 <= m < |chords| ==> !WellFormed(chords[m])
    ensures BeatsWithinBar(chords, 4)
  {
    BeatFields();
    forall m | 0 <= m < |chords| && WellFormed(chords[m]) && ParseInt(chords[m][0]).Some?
      ensures 1 <= ParseInt(chords[m][0]).value <= 4
    {
      if m == 0 {
        assert chords[m][0] == First[0];
      } else {
        assert chords[m][0] == Second[0];
      }
    }
  }

  lemma LinesWithNewline()
    ensures Split(WithNewline, '\n') == [FirstLine, SecondLine, ""]
  {
    var lines := [FirstLine, SecondLine, ""];
    assert Join(lines[1..], '\n') == SecondLine + "\n";
    assert Join(lines, '\n') == WithNewline;
    SplitJoin(lines, '\n');
  }

  /** With a final newline the text ends in the one-field record `[""]`. */
  lemma RecordsWithNewline()
    ensures Records(WithNewline) == [First, Second, [""]]
  {
    LinesWithNewline();
    RecordsOfThreeLines(WithNewline, FirstLine, SecondLine, "");
    SplitFirst();
    SplitSecond();
    assert Split("", ';') == [""];
  }

  lemma LinesWithoutNewline()
    ensures Split(WithoutNewline, '\n') == [FirstLine, SecondLine]
  {
    var lines := [FirstLine, SecondLine];
    assert Join(lines, '\n') == WithoutNewline;
    SplitJoin(lines, '\n');
  }

  lemma RecordsWithoutNewline()
    ensures Records(WithoutNewline) == [First, Second]
  {
    LinesWithoutNewline();
    RecordsOfTwoLines(WithoutNewline, FirstLine, SecondLine);
    SplitFirst();
    SplitSecond();
  }

  /** From beat 2 on: a rest, then G7 on beat 3, then the empty record ends the bar. */
  lemma SecondRecordWithNewline(chords: seq<Record>)
    requires chords == [First, Second, [""]]
    ensures ScanBar(chords, 1, 1, 4) == Ok(([Rest, Play("G7")], 3))
  {
    BeatFields();
    assert chords[1][0] == Second[0] && chords[1][1] == "G7";
    assert ScanBar(chords, 2, 3, 4) == Ok(([], 3));
    assert ScanBar(chords, 1, 2, 4) == PrependBeat(Play("G7"), ScanBar(chords, 2, 3, 4));
    assert [Play("G7")] + [] == [Play("G7")];
    assert ScanBar(chords, 1, 1, 4) == Ok(([Rest] + [Play("G7")], 3));
    assert [Rest] + [Play("G7")] == [Rest, Play("G7")];
  }

  lemma BarsWithNewline(chords: seq<Record>)
    requires chords == [First, Second, [""]]
    ensures BeatsWithinBar(chords, 4)
    ensures BarsOf(chords, 4) == Ok([[Play("C:maj"), Rest, Play("G7")]])
  {
    BeatFields();
    assert !WellFormed(chords[2]);
    BeatsOfTwoChords(chords);
    assert chords[0][0] == First[0] && chords[0][1] == "C:maj";
    SecondRecordWithNewline(chords);
    var bar := [Play("C:maj"), Rest, Play("G7")];
    assert ScanBar(chords, 0, 0, 4) == Ok(([Play("C:maj")] + [Rest, Play("G7")], 3));
    assert [Play("C:maj")] + [Rest, Play("G7")] == bar;
    assert GridFrom(chords, 3, 4) == Ok([]);
    assert GridFrom(chords, 0, 4) == PrependBar(bar, GridFrom(chords, 3, 4));
    assert [bar] + [] == [bar];
  }

  /**
   * C:maj on beat 1 and G7 on beat 3, text ending in a newline: one bar of
   * three beats. Beat 2 rests, and the empty last record ends the bar before
   * beat 4, so beat 4 neither rests nor sounds.
   */
  lemma TwoChordsWithNewline()
    ensures BeatsWithinBar(Records(WithNewline), 4)
    ensures BarsOf(Records(WithNewline), 4) == Ok([[Play("C:maj"), Rest, Play("G7")]])
  {
    RecordsWithNewline();
    BarsWithNewline(Records(WithNewline));
  }

  /** From beat 2 on: a rest, G7 on beat 3, then no record is left for beat 4. */
  lemma SecondRecordWithoutNewline(chords: seq<Record>)
    requires chords == [First, Second]
    ensures ScanBar(chords, 1, 1, 4) == Err(IndexError)
  {
    BeatFields();
    assert chords[1][0] == Second[0];
    assert ScanBar(chords, 2, 3, 4) == Err(IndexError);
    assert ScanBar(chords, 1, 2, 4) == PrependBeat(Play("G7"), ScanBar(chords, 2, 3, 4));
    assert ScanBar(chords, 1, 1, 4) == PrependBeat(Rest, ScanBar(chords, 1, 2, 4));
  }

  lemma BarsWithoutNewline(chords: seq<Record>)
    requires chords == [First, Second]
    ensures BeatsWithinBar(chords, 4)
    ensures BarsOf(chords, 4) == Err(IndexError)
  {
    BeatFields();
    BeatsOfTwoChords(chords);
    assert chords[0][0] == First[0];
    SecondRecordWithoutNewline(chords);
    assert ScanBar(chords, 0, 0, 4) == PrependBeat(Play(chords[0][1]), ScanBar(chords, 1, 1, 4));
  }

  /** The same text without the final newline: beat 4 reads past the last record and raises IndexError. */
  lemma TwoChordsWithoutNewline()
    ensures BeatsWithinBar(Records(WithoutNewline), 4)
    ensures BarsOf(Records(WithoutNewline), 4) == Err(IndexError)
  {
    RecordsWithoutNewline();
    BarsWithoutNewline(Records(WithoutNewline));
  }

  /** C:maj in the key of C with four beats per bar: C4, E4, G4 struck together, then released. */
  const CMajorEvents: seq<Event> :=
    [NoteOn(60, 64, 0), NoteOn(64, 64, 0), NoteOn(67, 64, 0),
     NoteOff(60, 64, 480), NoteOff(64, 64, 480), NoteOff(67, 64, 480)]

  /** G7 likewise: G4, B4, D5, F5. */
  const G7Events: seq<Event> :=
    [NoteOn(67, 64, 0), NoteOn(71, 64, 0), NoteOn(74, 64, 0), NoteOn(77, 64, 0),
     NoteOff(67, 64, 480), NoteOff(71, 64, 480), NoteOff(74, 64, 480), NoteOff(77, 64, 480)]

  lemma PlayCMajor()
    ensures BeatEvents(Play("C:maj"), 0, 480) == CMajorEvents
  {
    assert SymbolName('C', Major) == "C:maj";
    ParseSymbolName('C', Major);
    var notes := Transpose([60, 64, 67], 0);
    assert notes == [60, 64, 67];
    assert Onsets(notes) == CMajorEvents[..3];
    assert Releases(notes, 480) == CMajorEvents[3..];
  }

  lemma PlayG7()
    ensures BeatEvents(Play("G7"), 0, 480) == G7Events
  {
    assert SymbolName('G', Dominant7) == "G7";
    ParseSymbolName('G', Dominant7);
    var notes := Transpose([67, 71, 74, 77], 0);
    assert notes == [67, 71, 74, 77];
    assert Onsets(notes) == G7Events[..4];
    assert Releases(notes, 480) == G7Events[4..];
  }

  /** The key of C leaves the table's pitches where they are. */
  lemma KeyOfC()
    ensures KeyToMidi("C") == 60
  {
    KeyToMidiIsSpelledPitch("C");
    assert SpelledPitchClass("C") == Some(0);
  }

  /** The one bar of the text with a final newline: C:maj, the rest of beat 2, G7, and the closing `note_off`. */
  const TwoChordsBar: seq<Event> := CMajorEvents + RestFiller(480) + G7Events + [NoteOff(60, 0, 480)]

  lemma TwoChordsBeats()
    ensures BeatsEvents([Play("C:maj"), Rest, Play("G7")], 0, 480) == CMajorEvents + RestFiller(480) + G7Events
  {
    var bar := [Play("C:maj"), Rest, Play("G7")];
    PlayCMajor();
    PlayG7();
    assert bar[..2][..1] == [Play("C:maj")];
    assert BeatsEvents(bar[..2][..1], 0, 480) == CMajorEvents;
    assert BeatsEvents(bar[..2], 0, 480) == CMajorEvents + RestFiller(480);
  }

  /**
   * The track compiled from the text with a final newline, key C, four beats
   * per bar: the tempo, C:maj, the twelve-`note_off` rest of beat 2, G7, and
   * the bar's closing `note_off` of C4 at velocity 0; nothing for beat 4.
   */
  lemma TwoChordsTrack(tempo: int)
    ensures BeatsWithinBar(Records(WithNewline), 4)
    ensures Compile(Records(WithNewline), 4, "C", tempo) == Ok([SetTempo(tempo)] + TwoChordsBar)
  {
    TwoChordsWithNewline();
    TwoChordsBarEvents();
    KeyOfC();
  }

  lemma TwoChordsBarEvents()
    ensures TrackEvents([[Play("C:maj"), Rest, Play("G7")]], 0, NoteDuration(4)) == TwoChordsBar
  {
    TwoChordsBeats();
    var bars := [[Play("C:maj"), Rest, Play("G7")]];
    var noBars: seq<seq<Beat>> := [];
    assert NoteDuration(4) == 480;
    assert bars[..0] == noBars;
  }
}
