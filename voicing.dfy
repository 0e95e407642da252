/**
 * The Voicer layer: reading a chord symbol such as "2b7" against the key,
 * spelling the chord's tones, and placing each tone in the highest octave
 * that keeps it below a top note.
 */
module Voicing {
  import opened Outcomes
  import opened Chromatic
  import opened Harmony

  /** `int(chord_root) - 1` for a degree digit '1' to '7'. */
  function Degree(c: char): (d: nat)
    requires '0' < c < '8'
    ensures d < 7
  {
    (c as int) - ('1' as int)
  }

  /**
   * The root offset of a chord symbol with a suffix: the degree's offset,
   * one lower if the suffix holds a `b` and one higher if it holds a `#`.
   */
  function AlteredIndex(pattern: seq<nat>, d: nat, suffix: string): (a: int)
    requires d < |pattern|
    ensures pattern[d] - 1 <= a <= pattern[d] + 1
    ensures ('b' in suffix <==> '#' in suffix) ==> a == pattern[d]
  {
    (pattern[d] as int) - (if 'b' in suffix then 1 else 0) + (if '#' in suffix then 1 else 0)
  }

  /**
   * `_parse_chord_num`: the first character is the degree. A bare degree is
   * the key's diatonic chord; any suffix makes a dominant seventh on the
   * altered root, read from `scale` with Python's indexing.
   */
  function ParseChordNum(scale: seq<string>, pattern: seq<nat>, diatonic: seq<ChordName>, chordNum: string)
    : (r: Result<ChordName>)
    requires |pattern| == 7 && |diatonic| == 7
    ensures r == Err(EmptyChordNum) <==> |chordNum| == 0
    ensures |chordNum| > 0 && !('0' < chordNum[0] < '8') ==> r == Err(BadDegree(chordNum[0]))
    ensures r.Ok? && |chordNum| == 1 ==> r.value in diatonic
    ensures r.Ok? && |chordNum| > 1 ==> r.value.root in scale && r.value.quality == "7"
    ensures r.Err? && |chordNum| > 1 ==> r.error.IndexOutOfRange? || r.error.BadDegree?
  {
    if |chordNum| == 0 then Err(EmptyChordNum)
    else
      var chordRoot, chordForm := chordNum[0], chordNum[1..];
      if !('0' < chordRoot < '8') then Err(BadDegree(chordRoot))
      else if |chordForm| > 0 then
        match PyIndex(scale, AlteredIndex(pattern, Degree(chordRoot), chordForm))
        case Ok(root) => Ok(ChordName(root, "7"))
        case Err(e) => Err(e)
      else Ok(diatonic[Degree(chordRoot)])
  }

  /** `_parse_chord_num` on the engine built for `key`. */
  function Parse(key: string, chordNum: string): (r: Result<ChordName>)
    requires KeyCheck(key).Ok?
    ensures r == Err(EmptyChordNum) <==> |chordNum| == 0
    ensures r.Ok? ==> r.value.root in ScaleFor(key) && r.value.quality in ChordTone
  {
    ParseChordNum(ScaleFor(key), PatternFor(key), DiatonicFor(key), chordNum)
  }

  /** The loop of `four_part_voicing`: the entries of `chordScale` at the quality's offsets, in order. */
  function ChordTones(chordScale: seq<string>, offsets: seq<nat>): (tones: seq<string>)
    requires forall i :: 0 <= i < |offsets| ==> offsets[i] < |chordScale|
    ensures |tones| == |offsets|
  {
    seq(|offsets|, i requires 0 <= i < |offsets| => chordScale[offsets[i]])
  }

  /**
   * The inner loop of `_set_octave`: trying the octave labels from the last
   * one down, the position of the first that puts `note` in `below`.
   */
  function HighestOctave(note: string, octs: seq<string>, below: seq<string>): (r: Option<nat>)
    ensures r.Some? ==> r.value < |octs| && note + octs[r.value] in below
    ensures r.Some? ==> forall j :: r.value < j < |octs| ==> note + octs[j] !in below
    ensures r.None? ==> forall j :: 0 <= j < |octs| ==> note + octs[j] !in below
  {
    if octs == [] then None
    else if note + octs[|octs| - 1] in below then Some(|octs| - 1)
    else HighestOctave(note, octs[..|octs| - 1], below)
  }

  /** What `_set_octave` appends for one tone: the tone in its highest fitting octave, or nothing. */
  function Emit(note: string, octs: seq<string>, below: seq<string>): (r: seq<string>)
    ensures |r| <= 1
    ensures r == [] <==> HighestOctave(note, octs, below).None?
    ensures r != [] ==> r[0] in below
  {
    match HighestOctave(note, octs, below)
    case Some(j) => [note + octs[j]]
    case None => []
  }

  /**
   * `_set_octave` once the slice is taken: each tone that fits somewhere,
   * in its highest fitting octave, in the order of the tones.
   */
  function Placed(notes: seq<string>, octs: seq<string>, below: seq<string>): (r: seq<string>)
    ensures |r| <= |notes|
    ensures forall x :: x in r ==> x in below
  {
    if notes == [] then []
    else Placed(notes[..|notes| - 1], octs, below) + Emit(notes[|notes| - 1], octs, below)
  }

  /**
   * `four_part_voicing` over an engine's tables: parse the symbol, rotate
   * `scale` to the chord root, read the quality's tones, and place them
   * below `top` in the four-octave table.
   */
  function VoiceWith(scale: seq<string>, pattern: seq<nat>, diatonic: seq<ChordName>, chordNum: string, top: string)
    : (r: Result<seq<string>>)
    requires |scale| == 12 && |pattern| == 7 && |diatonic| == 7
    requires forall i :: 0 <= i < 7 ==> diatonic[i].root in scale && diatonic[i].quality in ChordTone
    ensures r.Ok? ==> |r.value| <= 4 && forall x :: x in r.value ==> x in FourOctaves
  {
    match ParseChordNum(scale, pattern, diatonic, chordNum)
    case Err(e) => Err(e)
    case Ok(chord) =>
      var chordScale := SortedChromatic(scale, chord.root).value;
      ChordToneShape(chord.quality);
      var tones := ChordTones(chordScale, ChordTone[chord.quality]);
      match Sliced(FourOctaves, top)
      case Err(e) => Err(e)
      case Ok(below) => Ok(Placed(tones, Octaves, below))
  }

  /** `four_part_voicing` on the engine built for `key`. */
  function Voice(key: string, chordNum: string, top: string): (r: Result<seq<string>>)
    requires KeyCheck(key).Ok?
    ensures r.Ok? ==> |r.value| <= 4 && forall x :: x in r.value ==> x in FourOctaves
  {
    VoiceWith(ScaleFor(key), PatternFor(key), DiatonicFor(key), chordNum, top)
  }
}
