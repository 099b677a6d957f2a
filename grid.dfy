/**
 * The bar/beat cursor of `generate_midi`: the chord text is cut into
 * records, and each bar walks its beats `1..barLength` over the records.
 * This module records, per bar, what happened at each beat (a record
 * played, or a rest) and where the cursor ended.
 */
module Grid {
  import opened Outcomes
  import opened PyText

  /** One line of the chord text, cut at `;`: beat, chord symbol and two unused fields. */
  type Record = seq<string>

  /** `[line.split(';') for line in text.split('\n')]`. */
  function Records(text: string): seq<Record> {
    var lines := Split(text, '\n');
    seq(|lines|, k requires 0 <= k < |lines| => Split(lines[k], ';'))
  }

  /** A text of two lines gives the two records those lines split into. */
  lemma RecordsOfTwoLines(text: string, a: string, b: string)
    requires Split(text, '\n') == [a, b]
    ensures Records(text) == [Split(a, ';'), Split(b, ';')]
  {
  }

  /** ... and a text of three lines, three. */
  lemma RecordsOfThreeLines(text: string, a: string, b: string, c: string)
    requires Split(text, '\n') == [a, b, c]
    ensures Records(text) == [Split(a, ';'), Split(b, ';'), Split(c, ';')]
  {
  }

  /** A record the compiler reads; any other field count is skipped. */
  predicate WellFormed(r: Record) {
    |r| == 4
  }

  /** What a bar does at one beat. */
  datatype Beat =
    | Play(symbol: string)   // the record under the cursor names this beat: its chord is looked up
    | Rest                   // the record under the cursor names a later beat

  /**
   * The condition under which `generate_midi` terminates: a positive bar
   * length, and every four-field record whose beat field is an integer names
   * a beat of the bar. Otherwise a bar can leave the cursor where it was
   * (`CursorStalls`) and the outer loop repeats that bar for ever.
   */
  predicate BeatsWithinBar(chords: seq<Record>, barLength: int) {
    barLength >= 1
    && forall m :: 0 <= m < |chords| && WellFormed(chords[m]) && ParseInt(chords[m][0]).Some?
         ==> 1 <= ParseInt(chords[m][0]).value <= barLength
  }

  /** The record is malformed, or names one of the beats `j+1..barLength`. */
  predicate DueAfter(r: Record, j: int, barLength: int) {
    WellFormed(r) && ParseInt(r[0]).Some? ==> j < ParseInt(r[0]).value <= barLength
  }

  function PrependBeat(b: Beat, r: Result<(seq<Beat>, nat)>): Result<(seq<Beat>, nat)> {
    match r
    case Ok((beats, k)) => Ok(([b] + beats, k))
    case Err(e) => Err(e)
  }

  /**
   * Beats `j+1..barLength` of a bar whose cursor is at record `i`: the beats
   * scanned and the cursor after the bar. A malformed record is consumed and
   * ends the bar at once; a record naming the current beat is played and
   * consumed; one naming another beat gives a rest and stays under the
   * cursor. Reading past the last record raises IndexError, a beat field
   * `int()` rejects raises ValueError.
   */
  function ScanBar(chords: seq<Record>, i: nat, j: nat, barLength: int): (r: Result<(seq<Beat>, nat)>)
    requires i <= |chords|
    ensures r.Ok? ==> i <= r.value.1 <= |chords|
    decreases barLength - j
  {
    if j >= barLength then Ok(([], i))
    else if i == |chords| then Err(IndexError)
    else if !WellFormed(chords[i]) then Ok(([], i + 1))
    else
      match ParseInt(chords[i][0])
      case None => Err(ValueError)
      case Some(beat) =>
        if beat == j + 1 then PrependBeat(Play(chords[i][1]), ScanBar(chords, i + 1, j + 1, barLength))
        else PrependBeat(Rest, ScanBar(chords, i, j + 1, barLength))
  }

  /**
   * A bar consumes the record under the cursor when that record is
   * malformed or names a beat still ahead in the bar.
   */
  lemma {:induction false} ScanBarAdvances(chords: seq<Record>, i: nat, j: nat, barLength: int)
    requires i < |chords| && j < barLength && DueAfter(chords[i], j, barLength)
    requires ScanBar(chords, i, j, barLength).Ok?
    ensures i < ScanBar(chords, i, j, barLength).value.1
    decreases barLength - j
  {
    if WellFormed(chords[i]) && ParseInt(chords[i][0]).value != j + 1 {
      ScanBarAdvances(chords, i, j + 1, barLength);
    }
  }

  /** A bar scans at most one beat per remaining beat. */
  lemma {:induction false} ScanBarFits(chords: seq<Record>, i: nat, j: nat, barLength: int)
    requires i <= |chords| && j <= barLength && ScanBar(chords, i, j, barLength).Ok?
    ensures |ScanBar(chords, i, j, barLength).value.0| <= barLength - j
    decreases barLength - j
  {
    if j < barLength && WellFormed(chords[i]) {
      if ParseInt(chords[i][0]).value == j + 1 {
        ScanBarFits(chords, i + 1, j + 1, barLength);
      } else {
        ScanBarFits(chords, i, j + 1, barLength);
      }
    }
  }

  /** The bar from cursor `i` ended by consuming a malformed record (the last one before cursor `k`). */
  predicate EndsOnMalformed(chords: seq<Record>, i: nat, k: nat)
    requires k <= |chords|
  {
    i < k && !WellFormed(chords[k - 1])
  }

  /** A bar is cut short exactly when the last record it consumed is malformed. */
  lemma {:induction false} ScanBarCutShort(chords: seq<Record>, i: nat, j: nat, barLength: int)
    requires i <= |chords| && j <= barLength && ScanBar(chords, i, j, barLength).Ok?
    ensures |ScanBar(chords, i, j, barLength).value.0| < barLength - j
            <==> EndsOnMalformed(chords, i, ScanBar(chords, i, j, barLength).value.1)
    decreases barLength - j
  {
    var r := ScanBar(chords, i, j, barLength);
    if j >= barLength {
      assert r == Ok(([], i));
    } else if !WellFormed(chords[i]) {
      assert r.value.1 == i + 1 && r.value.0 == [];
    } else {
      var beat := ParseInt(chords[i][0]).value;
      if beat == j + 1 {
        var rest := ScanBar(chords, i + 1, j + 1, barLength);
        assert r == PrependBeat(Play(chords[i][1]), rest);
        ScanBarCutShort(chords, i + 1, j + 1, barLength);
        var k := rest.value.1;
        assert r.value.1 == k && |r.value.0| == |rest.value.0| + 1;
        assert EndsOnMalformed(chords, i, k) <==> EndsOnMalformed(chords, i + 1, k);
      } else {
        var rest := ScanBar(chords, i, j + 1, barLength);
        assert r == PrependBeat(Rest, rest);
        ScanBarCutShort(chords, i, j + 1, barLength);
        assert r.value.1 == rest.value.1 && |r.value.0| == |rest.value.0| + 1;
      }
    }
  }

  /** Every record a bar consumes before its last one is well-formed: a malformed record ends the bar. */
  lemma {:induction false} ScanBarConsumesWellFormed(chords: seq<Record>, i: nat, j: nat, barLength: int)
    requires i <= |chords| && ScanBar(chords, i, j, barLength).Ok?
    ensures forall m :: i <= m < ScanBar(chords, i, j, barLength).value.1 - 1 ==> WellFormed(chords[m])
    decreases barLength - j
  {
    if j < barLength && WellFormed(chords[i]) {
      if ParseInt(chords[i][0]).value == j + 1 {
        ScanBarConsumesWellFormed(chords, i + 1, j + 1, barLength);
      } else {
        ScanBarConsumesWellFormed(chords, i, j + 1, barLength);
      }
    }
  }

  function PrependBar(bar: seq<Beat>, r: Result<seq<seq<Beat>>>): Result<seq<seq<Beat>>> {
    match r
    case Ok(bars) => Ok([bar] + bars)
    case Err(e) => Err(e)
  }

  /** The bars from cursor `i` to the end of the records. */
  function GridFrom(chords: seq<Record>, i: nat, barLength: int): Result<seq<seq<Beat>>>
    requires i <= |chords| && BeatsWithinBar(chords, barLength)
    decreases |chords| - i
  {
    if i == |chords| then Ok([])
    else
      match ScanBar(chords, i, 0, barLength)
      case Err(e) => Err(e)
      case Ok((bar, k)) =>
        assert DueAfter(chords[i], 0, barLength);
        ScanBarAdvances(chords, i, 0, barLength);
        PrependBar(bar, GridFrom(chords, k, barLength))
  }

  /** The bars of the whole piece, cursor starting at the first record. */
  function BarsOf(chords: seq<Record>, barLength: int): Result<seq<seq<Beat>>>
    requires BeatsWithinBar(chords, barLength)
  {
    GridFrom(chords, 0, barLength)
  }

  lemma {:induction false} GridFromFits(chords: seq<Record>, i: nat, barLength: int)
    requires i <= |chords| && BeatsWithinBar(chords, barLength) && GridFrom(chords, i, barLength).Ok?
    ensures forall b :: 0 <= b < |GridFrom(chords, i, barLength).value|
              ==> |GridFrom(chords, i, barLength).value[b]| <= barLength
    decreases |chords| - i
  {
    if i < |chords| {
      assert DueAfter(chords[i], 0, barLength);
      ScanBarAdvances(chords, i, 0, barLength);
      ScanBarFits(chords, i, 0, barLength);
      GridFromFits(chords, ScanBar(chords, i, 0, barLength).value.1, barLength);
    }
  }

  /** No bar has more beats than the bar length. */
  lemma BarsFit(chords: seq<Record>, barLength: int)
    requires BeatsWithinBar(chords, barLength) && BarsOf(chords, barLength).Ok?
    ensures forall b :: 0 <= b < |BarsOf(chords, barLength).value| ==> |BarsOf(chords, barLength).value[b]| <= barLength
  {
    GridFromFits(chords, 0, barLength);
  }

  // ---------------------------------------------------------------------
  // Every well-formed record is played once, in order
  // ---------------------------------------------------------------------

  /** The chord symbols of the four-field records, in record order. */
  function WellFormedSymbols(chords: seq<Record>): seq<string> {
    if chords == [] then []
    else (if WellFormed(chords[0]) then [chords[0][1]] else []) + WellFormedSymbols(chords[1..])
  }

  /** The symbols of the played beats, in beat order. */
  function Played(beats: seq<Beat>): seq<string> {
    if beats == [] then []
    else (if beats[0].Play? then [beats[0].symbol] else []) + Played(beats[1..])
  }

  function Flatten(bars: seq<seq<Beat>>): seq<Beat> {
    if bars == [] then [] else bars[0] + Flatten(bars[1..])
  }

  lemma {:induction false} WellFormedSymbolsAppend(a: seq<Record>, b: seq<Record>)
    ensures WellFormedSymbols(a + b) == WellFormedSymbols(a) + WellFormedSymbols(b)
    decreases |a|
  {
    if a != [] {
      WellFormedSymbolsAppend(a[1..], b);
      assert (a + b)[0] == a[0] && (a + b)[1..] == a[1..] + b;
    } else {
      assert a + b == b;
    }
  }

  lemma {:induction false} PlayedAppend(a: seq<Beat>, b: seq<Beat>)
    ensures Played(a + b) == Played(a) + Played(b)
    decreases |a|
  {
    if a != [] {
      PlayedAppend(a[1..], b);
      assert (a + b)[0] == a[0] && (a + b)[1..] == a[1..] + b;
    } else {
      assert a + b == b;
    }
  }

  /** Within one bar, the beats played are the well-formed records the bar consumed. */
  lemma {:induction false} ScanBarPlaysConsumed(chords: seq<Record>, i: nat, j: nat, barLength: int)
    requires i <= |chords| && ScanBar(chords, i, j, barLength).Ok?
    ensures Played(ScanBar(chords, i, j, barLength).value.0)
              == WellFormedSymbols(chords[i..ScanBar(chords, i, j, barLength).value.1])
    decreases barLength - j
  {
    if j >= barLength {
    } else if !WellFormed(chords[i]) {
      assert chords[i..i + 1] == [chords[i]];
    } else {
      var beat := ParseInt(chords[i][0]).value;
      var k := ScanBar(chords, i, j, barLength).value.1;
      if beat == j + 1 {
        ScanBarPlaysConsumed(chords, i + 1, j + 1, barLength);
        assert chords[i..k][1..] == chords[i + 1..k];
      } else {
        ScanBarPlaysConsumed(chords, i, j + 1, barLength);
      }
    }
  }

  lemma {:induction false} GridFromPlaysRest(chords: seq<Record>, i: nat, barLength: int)
    requires i <= |chords| && BeatsWithinBar(chords, barLength)
    requires GridFrom(chords, i, barLength).Ok?
    ensures Played(Flatten(GridFrom(chords, i, barLength).value)) == WellFormedSymbols(chords[i..])
    decreases |chords| - i
  {
    if i < |chords| {
      var scan := ScanBar(chords, i, 0, barLength);
      var bar, k := scan.value.0, scan.value.1;
      assert DueAfter(chords[i], 0, barLength);
      ScanBarAdvances(chords, i, 0, barLength);
      ScanBarPlaysConsumed(chords, i, 0, barLength);
      var later := GridFrom(chords, k, barLength);
      assert GridFrom(chords, i, barLength) == PrependBar(bar, later);
      GridFromPlaysRest(chords, k, barLength);
      var bars := GridFrom(chords, i, barLength).value;
      assert bars == [bar] + later.value;
      assert Flatten(bars) == bar + Flatten(later.value);
      PlayedAppend(bar, Flatten(later.value));
      assert chords[i..] == chords[i..k] + chords[k..];
      WellFormedSymbolsAppend(chords[i..k], chords[k..]);
    }
  }

  /**
   * When the piece compiles, every four-field record is played exactly once
   * and in order: the chords of the played beats, bar after bar, are the
   * chord fields of the well-formed records. Malformed records are skipped,
   * and rests never consume a record.
   */
  lemma GridPlaysEveryRecord(chords: seq<Record>, barLength: int)
    requires BeatsWithinBar(chords, barLength) && BarsOf(chords, barLength).Ok?
    ensures Played(Flatten(BarsOf(chords, barLength).value)) == WellFormedSymbols(chords)
  {
    GridFromPlaysRest(chords, 0, barLength);
    assert chords[0..] == chords;
  }

  // ---------------------------------------------------------------------
  // Non-termination outside BeatsWithinBar
  // ---------------------------------------------------------------------

  /** `n` rests (none when `n` is not positive). */
  function Rests(n: int): seq<Beat>
    decreases n
  {
    if n <= 0 then [] else [Rest] + Rests(n - 1)
  }

  lemma {:induction false} RestsFrom(chords: seq<Record>, i: nat, j: nat, barLength: int)
    requires i < |chords| && WellFormed(chords[i]) && ParseInt(chords[i][0]).Some?
    requires !(j < ParseInt(chords[i][0]).value <= barLength)
    ensures ScanBar(chords, i, j, barLength) == Ok((Rests(barLength - j), i))
    decreases barLength - j
  {
    if j < barLength {
      RestsFrom(chords, i, j + 1, barLength);
    }
  }

  /**
   * A bar makes no progress when the bar length is not positive, or when the
   * record under the cursor has four fields and an integer beat outside
   * `1..barLength`: it scans only rests and leaves the cursor where it was,
   * so `while i < len(chords)` runs that same bar again, for ever.
   */
  lemma CursorStalls(chords: seq<Record>, i: nat, barLength: int)
    requires i < |chords|
    requires barLength < 1
             || (WellFormed(chords[i]) && ParseInt(chords[i][0]).Some?
                 && !(1 <= ParseInt(chords[i][0]).value <= barLength))
    ensures ScanBar(chords, i, 0, barLength) == Ok((Rests(barLength), i))
  {
    if barLength >= 1 {
      RestsFrom(chords, i, 0, barLength);
    }
  }

  // ---------------------------------------------------------------------
  // IndexError
  // ---------------------------------------------------------------------

  lemma {:induction false} ScanBarStopsAtLastMalformed(chords: seq<Record>, i: nat, j: nat, barLength: int)
    requires i < |chords| && !WellFormed(chords[|chords| - 1])
    ensures ScanBar(chords, i, j, barLength) != Err(IndexError)
    decreases barLength - j
  {
    if j < barLength && WellFormed(chords[i]) && ParseInt(chords[i][0]).Some? {
      var next := if ParseInt(chords[i][0]).value == j + 1 then i + 1 else i;
      ScanBarStopsAtLastMalformed(chords, next, j + 1, barLength);
    }
  }

  lemma {:induction false} GridFromStopsAtLastMalformed(chords: seq<Record>, i: nat, barLength: int)
    requires i <= |chords| && BeatsWithinBar(chords, barLength)
    requires |chords| >= 1 && !WellFormed(chords[|chords| - 1])
    ensures GridFrom(chords, i, barLength) != Err(IndexError)
    decreases |chords| - i
  {
    if i < |chords| {
      ScanBarStopsAtLastMalformed(chords, i, 0, barLength);
      if ScanBar(chords, i, 0, barLength).Ok? {
        assert DueAfter(chords[i], 0, barLength);
        ScanBarAdvances(chords, i, 0, barLength);
        GridFromStopsAtLastMalformed(chords, ScanBar(chords, i, 0, barLength).value.1, barLength);
      }
    }
  }

  /**
   * The cursor reads past the records only after a chord was played from the
   * last record: when the last record is malformed, IndexError cannot occur.
   */
  lemma NoIndexErrorAfterMalformedLast(chords: seq<Record>, barLength: int)
    requires BeatsWithinBar(chords, barLength)
    requires |chords| >= 1 && !WellFormed(chords[|chords| - 1])
    ensures BarsOf(chords, barLength) != Err(IndexError)
  {
    GridFromStopsAtLastMalformed(chords, 0, barLength);
  }

  /** Chord text ending in a newline ends in the one-field record `[""]`, so it never raises IndexError. */
  lemma NoIndexErrorAfterTrailingNewline(text: string, barLength: int)
    requires |text| >= 1 && text[|text| - 1] == '\n'
    requires BeatsWithinBar(Records(text), barLength)
    ensures Records(text)[|Records(text)| - 1] == [""]
    ensures BarsOf(Records(text), barLength) != Err(IndexError)
  {
    var lines := Split(text, '\n');
    var records := Records(text);
    SplitTrailingSeparator(text, '\n');
    assert lines[|lines| - 1] == "";
    assert records[|records| - 1] == Split("", ';') == [""];
    NoIndexErrorAfterMalformedLast(records, barLength);
  }

  // ---------------------------------------------------------------------
  // Bars of one beat
  // ---------------------------------------------------------------------

  lemma {:induction false} GridFromOneBeatBars(chords: seq<Record>, i: nat)
    requires i <= |chords| && BeatsWithinBar(chords, 1) && GridFrom(chords, i, 1).Ok?
    ensures forall b, k :: 0 <= b < |GridFrom(chords, i, 1).value| && 0 <= k < |GridFrom(chords, i, 1).value[b]|
              ==> GridFrom(chords, i, 1).value[b][k].Play?
    decreases |chords| - i
  {
    if i < |chords| {
      assert DueAfter(chords[i], 0, 1);
      ScanBarAdvances(chords, i, 0, 1);
      var k := ScanBar(chords, i, 0, 1).value.1;
      GridFromOneBeatBars(chords, k);
    }
  }

  /** With one beat per bar every well-formed record names beat 1, so a bar never rests. */
  lemma BarLengthOneNeverRests(chords: seq<Record>)
    requires BeatsWithinBar(chords, 1) && BarsOf(chords, 1).Ok?
    ensures forall b, k :: 0 <= b < |BarsOf(chords, 1).value| && 0 <= k < |BarsOf(chords, 1).value[b]|
              ==> BarsOf(chords, 1).value[b][k] != Rest
  {
    GridFromOneBeatBars(chords, 0);
  }
}
