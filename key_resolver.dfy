/** `key_to_midi`: the detected key of a song as the MIDI pitch of its tonic in octave 4. */
module KeyResolver {
  import opened Outcomes

  /** The `key_mapping` dictionary: every sharp and flat spelling of the twelve pitch classes, and `N`. */
  const KeyMapping: map<string, int> := map[
    "C" := 60,
    "C#" := 61, "Db" := 61,
    "D" := 62,
    "D#" := 63, "Eb" := 63,
    "E" := 64,
    "F" := 65,
    "F#" := 66, "Gb" := 66,
    "G" := 67,
    "G#" := 68, "Ab" := 68,
    "A" := 69,
    "A#" := 70, "Bb" := 70,
    "B" := 71,
    "N" := 60
  ]

  /** `key_mapping.get(key, 60)`: always a pitch of the octave starting at middle C. */
  function KeyToMidi(key: string): (m: int)
    ensures 60 <= m <= 71
  {
    if key in KeyMapping then KeyMapping[key] else 60
  }

  /** Pitch class of a natural note letter, C = 0. */
  function NaturalPitchClass(c: char): Option<int> {
    match c
    case 'C' => Some(0)
    case 'D' => Some(2)
    case 'E' => Some(4)
    case 'F' => Some(5)
    case 'G' => Some(7)
    case 'A' => Some(9)
    case 'B' => Some(11)
    case _ => None
  }

  /** The pitch classes reached by a black key of the piano. */
  predicate IsBlackKey(pc: int) {
    pc == 1 || pc == 3 || pc == 6 || pc == 8 || pc == 10
  }

  /**
   * Music-theory reading of a key name: a natural letter, or a letter with `#`
   * or `b` that lands on a black key (so `E#`, `Fb`, `B#`, `Cb` are not names).
   */
  function SpelledPitchClass(key: string): Option<int> {
    if |key| == 1 then NaturalPitchClass(key[0])
    else if |key| == 2 && NaturalPitchClass(key[0]).Some? then
      var n := NaturalPitchClass(key[0]).value;
      if key[1] == '#' && IsBlackKey(n + 1) then Some(n + 1)
      else if key[1] == 'b' && IsBlackKey(n - 1) then Some(n - 1)
      else None
    else None
  }

  /**
   * The dictionary is exactly that reading, shifted to octave 4: a spelled
   * pitch class `pc` gives `60 + pc`, and `N` or any other string gives 60.
   */
  lemma KeyToMidiIsSpelledPitch(key: string)
    ensures SpelledPitchClass(key).Some? ==> KeyToMidi(key) == 60 + SpelledPitchClass(key).value
    ensures SpelledPitchClass(key).None? ==> KeyToMidi(key) == 60
  {
    if |key| == 1 {
      assert key == [key[0]];
    } else if |key| == 2 {
      assert key == [key[0], key[1]];
    }
  }

  /** Enharmonic spellings (`C#` and `Db`, ...) resolve to the same pitch. */
  lemma EnharmonicSpellingsAgree(a: string, b: string)
    requires SpelledPitchClass(a).Some? && SpelledPitchClass(a) == SpelledPitchClass(b)
    ensures KeyToMidi(a) == KeyToMidi(b)
  {
    KeyToMidiIsSpelledPitch(a);
    KeyToMidiIsSpelledPitch(b);
  }

  /** `N` (no key detected) and every name outside the dictionary mean no transposition. */
  lemma UnknownKeyIsMiddleC(key: string)
    requires key == "N" || key !in KeyMapping
    ensures KeyToMidi(key) == 60
  {
  }
}
