/**
 * The `chord_mapping` table: chord symbols of the `extended_inversions`
 * vocabulary (a root letter followed by a quality suffix) and the fixed
 * pitches played for each, rooted in octave 4.
 */
module Vocabulary {
  import opened Outcomes
  import KeyResolver

  /** The seven chord qualities of the table, in the order the table lists them. */
  datatype Quality = Major | Minor | Dominant7 | Major7 | Diminished | Minor7 | HalfDiminished

  /** The root letters the table covers. */
  const Roots: string := "CDEFGAB"

  /** How a quality is written after the root letter in a chord symbol. */
  function Suffix(q: Quality): string {
    match q
    case Major => ":maj"
    case Minor => ":min"
    case Dominant7 => "7"
    case Major7 => "maj7"
    case Diminished => "dim"
    case Minor7 => ":min7"
    case HalfDiminished => ":min7b5"
  }

  function SuffixQuality(s: string): Option<Quality> {
    if s == ":maj" then Some(Major)
    else if s == ":min" then Some(Minor)
    else if s == "7" then Some(Dominant7)
    else if s == "maj7" then Some(Major7)
    else if s == "dim" then Some(Diminished)
    else if s == ":min7" then Some(Minor7)
    else if s == ":min7b5" then Some(HalfDiminished)
    else None
  }

  /** The chord symbol for a root and a quality, e.g. `C:maj`, `G7`, `B:min7b5`. */
  function SymbolName(root: char, q: Quality): string {
    [root] + Suffix(q)
  }

  /** The keys of the table: a symbol is in it exactly when it reads as a root and a quality. */
  function ParseSymbol(name: string): Option<(char, Quality)> {
    if |name| >= 1 && name[0] in Roots then
      match SuffixQuality(name[1..])
      case Some(q) => Some((name[0], q))
      case None => None
    else None
  }

  /** Picks the entry of a row of seven values by root letter. */
  function ByRoot<T>(root: char, c: T, d: T, e: T, f: T, g: T, a: T, b: T): T {
    match root
    case 'C' => c
    case 'D' => d
    case 'E' => e
    case 'F' => f
    case 'G' => g
    case 'A' => a
    case _ => b
  }

  /** The table's values exactly as written in the source, one row per quality. */
  function VoicingAsWritten(root: char, q: Quality): seq<int> {
    match q
    case Major =>
      ByRoot(root, [60, 64, 67], [62, 66, 69], [64, 68, 71], [65, 69, 72], [67, 71, 74], [69, 73, 76], [71, 75, 78])
    case Minor =>
      ByRoot(root, [60, 63, 67], [62, 65, 69], [64, 67, 71], [65, 68, 72], [67, 70, 74], [69, 72, 76], [71, 74, 78])
    case Dominant7 =>
      ByRoot(root, [60, 64, 67, 70], [62, 66, 69, 72], [64, 68, 71, 74], [65, 69, 72, 75], [67, 71, 74, 77], [69, 73, 76, 79], [71, 75, 78, 81])
    case Major7 =>
      ByRoot(root, [60, 64, 67, 71], [62, 66, 69, 73], [64, 68, 71, 75], [65, 69, 72, 76], [67, 71, 74, 78], [69, 73, 76, 80], [71, 75, 78, 82])
    case Diminished =>
      ByRoot(root, [60, 63, 66], [62, 65, 68], [64, 67, 70], [65, 68, 71], [67, 70, 73], [69, 72, 75], [71, 74, 77])
    case Minor7 =>
      ByRoot(root, [60, 63, 67, 70], [62, 65, 69, 72], [64, 67, 71, 74], [65, 68, 72, 75], [67, 70, 74, 77], [69, 72, 76, 79], [71, 74, 78, 81])
    case HalfDiminished =>
      ByRoot(root, [60, 63, 66, 70], [62, 65, 68, 72], [64, 67, 70, 74], [65, 68, 71, 75], [67, 70, 73, 77], [69, 72, 76, 79], [71, 74, 78, 81])
  }

  /** `chord_mapping.get(name)`: the pitches of a chord symbol as the table writes them, if it has the symbol. */
  function ChordLookup(name: string): Option<seq<int>> {
    match ParseSymbol(name)
    case Some((root, q)) => Some(VoicingAsWritten(root, q))
    case None => None
  }

  /** Three or four pitches, strictly rising, within 60..82. */
  predicate WellVoiced(ps: seq<int>) {
    (|ps| == 3 || |ps| == 4)
    && (forall k :: 0 <= k < |ps| ==> 60 <= ps[k] <= 82)
    && (forall k :: 0 < k < |ps| ==> ps[k - 1] < ps[k])
  }

  // ---------------------------------------------------------------------
  // The intended table: chord qualities as stacks of semitone intervals
  // ---------------------------------------------------------------------

  /** The semitones above the root of each chord tone, lowest first. */
  function Intervals(q: Quality): seq<int> {
    match q
    case Major => [0, 4, 7]
    case Minor => [0, 3, 7]
    case Dominant7 => [0, 4, 7, 10]
    case Major7 => [0, 4, 7, 11]
    case Diminished => [0, 3, 6]
    case Minor7 => [0, 3, 7, 10]
    case HalfDiminished => [0, 3, 6, 10]
  }

  /** Root-position chord on `base`. */
  function Stack(base: int, intervals: seq<int>): seq<int> {
    seq(|intervals|, k requires 0 <= k < |intervals| => base + intervals[k])
  }

  /** The root letter as a pitch of octave 4, the octave the table is written in. */
  function RootPitch(root: char): int
    requires root in Roots
  {
    assert root == 'C' || root == 'D' || root == 'E' || root == 'F' || root == 'G' || root == 'A' || root == 'B';
    60 + KeyResolver.NaturalPitchClass(root).value
  }

  /**
   * The pitches a chord symbol stands for: its quality's intervals stacked
   * on the root in octave 4.
   */
  function IntendedVoicing(root: char, q: Quality): seq<int>
    requires root in Roots
  {
    Stack(RootPitch(root), Intervals(q))
  }

  /** The table with its two half-diminished slips corrected. */
  function IntendedLookup(name: string): Option<seq<int>> {
    match ParseSymbol(name)
    case Some((root, q)) => Some(IntendedVoicing(root, q))
    case None => None
  }

  // ---------------------------------------------------------------------
  // Properties
  // ---------------------------------------------------------------------

  /** Symbol names and their reading are inverse: a name reads back as its root and quality. */
  lemma ParseSymbolName(root: char, q: Quality)
    requires root in Roots
    ensures ParseSymbol(SymbolName(root, q)) == Some((root, q))
  {
    assert SymbolName(root, q)[1..] == Suffix(q);
  }

  /** ... and a name that reads as a root and a quality is the name of that chord. */
  lemma SymbolNameOfParse(name: string)
    requires ParseSymbol(name).Some?
    ensures name[0] in Roots && name == SymbolName(ParseSymbol(name).value.0, ParseSymbol(name).value.1)
  {
    assert name == [name[0]] + name[1..];
  }

  /** The table has exactly the 49 symbols `SymbolName(root, q)` with `root` in `Roots`. */
  lemma ChordLookupDomain(name: string)
    ensures ChordLookup(name).Some? <==> exists root, q :: root in Roots && name == SymbolName(root, q)
  {
    if ChordLookup(name).Some? {
      SymbolNameOfParse(name);
      var root, q := ParseSymbol(name).value.0, ParseSymbol(name).value.1;
      assert root in Roots && name == SymbolName(root, q);
    }
    if exists root, q :: root in Roots && name == SymbolName(root, q) {
      var root, q :| root in Roots && name == SymbolName(root, q);
      ParseSymbolName(root, q);
    }
  }

  lemma TriadsAsWritten(root: char, q: Quality)
    requires root in Roots && (q == Major || q == Minor || q == Diminished)
    ensures VoicingAsWritten(root, q) == IntendedVoicing(root, q)
  {
  }

  lemma SeventhsAsWritten(root: char, q: Quality)
    requires root in Roots && !(q == Major || q == Minor || q == Diminished)
    requires !(q == HalfDiminished && (root == 'A' || root == 'B'))
    ensures VoicingAsWritten(root, q) == IntendedVoicing(root, q)
  {
  }

  /** The table as written holds the interval stacks in 47 of its 49 entries. */
  lemma AsWrittenAgrees(root: char, q: Quality)
    requires root in Roots && !(q == HalfDiminished && (root == 'A' || root == 'B'))
    ensures VoicingAsWritten(root, q) == IntendedVoicing(root, q)
  {
    if q == Major || q == Minor || q == Diminished {
      TriadsAsWritten(root, q);
    } else {
      SeventhsAsWritten(root, q);
    }
  }

  /** As written, `A:min7b5` and `B:min7b5` are not half-diminished: they repeat `A:min7` and `B:min7`. */
  lemma AsWrittenHalfDiminishedIsMinor7()
    ensures VoicingAsWritten('A', HalfDiminished) != IntendedVoicing('A', HalfDiminished)
    ensures VoicingAsWritten('B', HalfDiminished) != IntendedVoicing('B', HalfDiminished)
    ensures VoicingAsWritten('A', HalfDiminished) == VoicingAsWritten('A', Minor7)
    ensures VoicingAsWritten('B', HalfDiminished) == VoicingAsWritten('B', Minor7)
  {
    assert VoicingAsWritten('A', HalfDiminished)[2] == 76 != IntendedVoicing('A', HalfDiminished)[2];
    assert VoicingAsWritten('B', HalfDiminished)[2] == 78 != IntendedVoicing('B', HalfDiminished)[2];
  }

  lemma StackOfFour(base: int, steps: seq<int>)
    requires |steps| == 4
    ensures Stack(base, steps) == [base + steps[0], base + steps[1], base + steps[2], base + steps[3]]
  {
  }

  /**
   * The corrected entries: `A:min7b5` is A, C, Eb, G and `B:min7b5` is B, D,
   * F, A, each a minor third, a diminished fifth and a minor seventh above
   * the root, while `A:min7` and `B:min7` keep their perfect fifth.
   */
  lemma HalfDiminishedCorrected()
    ensures IntendedLookup("A:min7b5") == Some([69, 72, 75, 79])
    ensures IntendedLookup("B:min7b5") == Some([71, 74, 77, 81])
    ensures IntendedLookup("A:min7") == Some([69, 72, 76, 79])
    ensures IntendedLookup("B:min7") == Some([71, 74, 78, 81])
  {
    StackOfFour(69, Intervals(HalfDiminished));
    StackOfFour(71, Intervals(HalfDiminished));
    StackOfFour(69, Intervals(Minor7));
    StackOfFour(71, Intervals(Minor7));
    assert SymbolName('A', HalfDiminished) == "A:min7b5";
    ParseSymbolName('A', HalfDiminished);
    assert SymbolName('B', HalfDiminished) == "B:min7b5";
    ParseSymbolName('B', HalfDiminished);
    assert SymbolName('A', Minor7) == "A:min7";
    ParseSymbolName('A', Minor7);
    assert SymbolName('B', Minor7) == "B:min7";
    ParseSymbolName('B', Minor7);
  }

  /** Every chord of the intended table has three or four rising pitches in 60..82. */
  lemma IntendedWellVoiced(root: char, q: Quality)
    requires root in Roots
    ensures WellVoiced(IntendedVoicing(root, q))
  {
    var base := RootPitch(root);
    var steps := Intervals(q);
    assert 60 <= base <= 71;
    assert |steps| >= 3 && steps[0] == 0 && steps[|steps| - 1] <= 11;
    assert forall k :: 0 < k < |steps| ==> steps[k - 1] < steps[k];
    assert forall k :: 0 <= k < |steps| ==> 0 <= steps[k] <= 11;
  }

  /**
   * Every entry of the table as written, the two half-diminished slips
   * included, has three or four rising pitches in 60..82.
   */
  lemma AsWrittenWellVoiced(root: char, q: Quality)
    requires root in Roots
    ensures WellVoiced(VoicingAsWritten(root, q))
  {
    if q == HalfDiminished && (root == 'A' || root == 'B') {
      AsWrittenHalfDiminishedIsMinor7();
      AsWrittenAgrees(root, Minor7);
      IntendedWellVoiced(root, Minor7);
    } else {
      AsWrittenAgrees(root, q);
      IntendedWellVoiced(root, q);
    }
  }

  /** Every chord `chord_mapping` holds has three or four rising pitches in 60..82. */
  lemma ChordLookupWellVoiced(name: string)
    ensures ChordLookup(name).Some? ==> WellVoiced(ChordLookup(name).value)
  {
    if ChordLookup(name).Some? {
      SymbolNameOfParse(name);
      AsWrittenWellVoiced(ParseSymbol(name).value.0, ParseSymbol(name).value.1);
    }
  }
}
