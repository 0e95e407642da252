/**
 * The Chord layer: key validation, the major and minor degree patterns, the
 * degree-quality table, the chord-tone offsets and the seven diatonic chords
 * of a key.
 */
module Harmony {
  import opened Outcomes
  import opened Chromatic

  /** Semitone offsets of the seven degrees in a major key. */
  const MajorPattern: seq<nat> := [0, 2, 4, 5, 7, 9, 11]

  /** Semitone offsets of the seven degrees in a (natural) minor key. */
  const MinorPattern: seq<nat> := [0, 2, 3, 5, 7, 8, 10]

  /** One row of the degree-quality table: the triad quality and the seventh-chord quality. */
  datatype Form = Form(triad: string, seventh: string)

  /** The quality of each degree of a major key, as a triad and as a seventh chord. */
  const SortedDiaChordForm: seq<Form> :=
    [Form("", "M7"), Form("m", "m7"), Form("m", "m7"), Form("", "M7"),
     Form("", "7"), Form("m", "m7"), Form("mb5", "m7b5")]

  /** The semitone offsets of the tones of each chord quality, root first. */
  const ChordTone: map<string, seq<nat>> :=
    map["" := [0, 4, 7], "m" := [0, 3, 7], "M7" := [0, 4, 7, 11], "m7" := [0, 3, 7, 10],
        "7" := [0, 4, 7, 10], "mb5" := [0, 3, 6], "m7b5" := [0, 3, 6, 10]]

  /** A chord as the engine passes it around: a root pitch class and a key of `ChordTone`. */
  datatype ChordName = ChordName(root: string, quality: string)

  /**
   * What building the engine for `key` checks, in the order it checks it:
   * `assert_key` first, then the search for the key's first character in the
   * C-first scale. On success, the position the scale is rotated by.
   */
  function KeyCheck(key: string): (r: Result<nat>)
    ensures r.Ok? ==> 0 < |key| < 3 && r.value < 12 && Canonical[r.value] == [key[0]]
  {
    if |key| >= 3 then Err(KeyTooLong) else FirstCharIndex(Canonical, key)
  }

  /** `'m' in key` picks the minor pattern; every other key is major. */
  function PatternFor(key: string): (p: seq<nat>)
    ensures |p| == 7 && p[0] == 0
    ensures forall i :: 0 <= i < 7 ==> p[i] < 12
  {
    if 'm' in key then MinorPattern else MajorPattern
  }

  /** Both patterns climb strictly through the octave from the tonic. */
  lemma PatternIncreasing(key: string)
    ensures forall i, j :: 0 <= i < j < 7 ==> PatternFor(key)[i] < PatternFor(key)[j]
  {
  }

  /** The C-first scale rotated to start at position `i`. */
  function RotatedScale(i: nat): (s: seq<string>)
    requires i < 12
    ensures |s| == 12 && s[0] == Canonical[i]
    ensures forall k :: 0 <= k < 12 ==> s[k] == Canonical[(i + k) % 12]
  {
    RotateTwelve(Canonical, i);
    Rotate(Canonical, i)
  }

  /** Every rotation of the scale still names each pitch class once. */
  lemma RotatedScaleDistinct(i: nat)
    requires i < 12
    ensures Distinct(RotatedScale(i))
  {
    CanonicalDistinct();
    RotateDistinct(Canonical, i);
  }

  /** Adding a multiple of twelve does not change a pitch class. */
  lemma ModAdd(x: int, y: int)
    ensures (x + y % 12) % 12 == (x + y) % 12
  {
    var q := y / 12;
    assert y == 12 * q + y % 12;
    assert x + y == (x + y % 12) + 12 * q;
  }

  /** Reading the rotated scale at `a`, wrapped into range, is reading `a` semitones above its start. */
  lemma RotatedScaleWrap(t: nat, a: int)
    requires t < 12 && -12 <= a < 12
    ensures 0 <= a % 12 < 12 && RotatedScale(t)[a % 12] == Canonical[(t + a) % 12]
  {
    ModAdd(t, a);
  }

  /**
   * The scale of a valid key: the C-first scale rotated so that the key's
   * first character comes first (so a key of "Db" starts the scale on "D").
   */
  function ScaleFor(key: string): (s: seq<string>)
    requires KeyCheck(key).Ok?
    ensures |s| == 12 && s[0] == [key[0]] && Distinct(s)
  {
    RotatedScaleDistinct(KeyCheck(key).value);
    RotatedScale(KeyCheck(key).value)
  }

  /**
   * `_get_diatonic`: degree `i` is the pitch class `pattern[i]` semitones into
   * `scale`, paired with the seventh-chord quality of row `i` of the
   * degree-quality table, whatever the mode.
   */
  function Diatonic(scale: seq<string>, pattern: seq<nat>): (d: seq<ChordName>)
    requires |pattern| <= |SortedDiaChordForm|
    requires forall i :: 0 <= i < |pattern| ==> pattern[i] < |scale|
    ensures |d| == |pattern|
    ensures forall i :: 0 <= i < |d| ==> d[i].root in scale && d[i].quality in ChordTone
  {
    seq(|pattern|, i requires 0 <= i < |pattern| =>
      ChordName(scale[pattern[i]], SortedDiaChordForm[i].seventh))
  }

  /** The seven diatonic chords of a valid key. */
  function DiatonicFor(key: string): (d: seq<ChordName>)
    requires KeyCheck(key).Ok?
    ensures |d| == 7 && d[0] == ChordName([key[0]], "M7")
  {
    DiatonicAt(ScaleFor(key), PatternFor(key), 0);
    Diatonic(ScaleFor(key), PatternFor(key))
  }

  lemma DiatonicAt(s: seq<string>, p: seq<nat>, i: nat)
    requires |s| == 12 && |p| == 7 && (forall j :: 0 <= j < 7 ==> p[j] < 12) && i < 7
    ensures Diatonic(s, p)[i] == ChordName(s[p[i]], SortedDiaChordForm[i].seventh)
  {
  }

  lemma SeventhColumn(i: nat)
    requires i < 7
    ensures SortedDiaChordForm[i].seventh == ["M7", "m7", "m7", "M7", "7", "m7", "m7b5"][i]
  {
  }

  /**
   * Every chord quality starts on its root and climbs within one octave;
   * the three triads have three tones and the four seventh chords four.
   */
  lemma ChordToneShape(q: string)
    requires q in ChordTone
    ensures ChordTone[q][0] == 0
    ensures forall i, j :: 0 <= i < j < |ChordTone[q]| ==> ChordTone[q][i] < ChordTone[q][j] < 12
    ensures |ChordTone[q]| == (if q in {"", "m", "mb5"} then 3 else 4)
  {
  }
}

/** What the Chord layer's tables and key handling guarantee. */
module HarmonyLaws {
  import opened Outcomes
  import opened Chromatic
  import opened Harmony

  /**
   * A key is accepted exactly when it has one or two characters and starts
   * with a natural note name; a longer key fails the assertion, an empty key
   * fails on `key[0]`, and any other first character is not found.
   */
  lemma KeyAccepted(key: string)
    ensures KeyCheck(key).Ok? <==> 0 < |key| < 3 && key[0] in "CDEFGAB"
    ensures |key| >= 3 ==> KeyCheck(key) == Err(KeyTooLong)
    ensures |key| == 0 ==> KeyCheck(key) == Err(EmptyKey)
    ensures 0 < |key| < 3 && key[0] !in "CDEFGAB" ==> KeyCheck(key) == Err(NotInList([key[0]]))
  {
    if 0 < |key| < 3 {
      var c := key[0];
      if c in "CDEFGAB" {
        assert [c] in Canonical;
      } else {
        assert forall k :: 0 <= k < 12 && |Canonical[k]| == 1 ==> Canonical[k][0] in "CDEFGAB";
      }
    }
  }

  /**
   * Degree `i` of any key is `PatternFor(key)[i]` semitones above the tonic,
   * and its quality is the major-key quality of that degree, in minor keys too.
   */
  lemma DiatonicDegrees(key: string, t: nat, i: nat)
    requires KeyCheck(key) == Ok(t) && i < 7
    ensures DiatonicFor(key)[i].root == Canonical[(t + PatternFor(key)[i]) % 12]
    ensures DiatonicFor(key)[i].quality == ["M7", "m7", "m7", "M7", "7", "m7", "m7b5"][i]
  {
    DiatonicAt(RotatedScale(t), PatternFor(key), i);
    SeventhColumn(i);
  }

  /** A key starting with C leaves the scale in C-first order. */
  lemma CScale(key: string)
    requires 0 < |key| < 3 && key[0] == 'C'
    ensures KeyCheck(key) == Ok(0) && ScaleFor(key) == Canonical
  {
    assert Canonical[0] == [key[0]];
    assert Rotate(Canonical, 0) == Canonical;
  }

  /** Key C: C M7, D m7, E m7, F M7, G 7, A m7, B m7b5. */
  lemma DiatonicOfC()
    ensures DiatonicFor("C") ==
      [ChordName("C", "M7"), ChordName("D", "m7"), ChordName("E", "m7"), ChordName("F", "M7"),
       ChordName("G", "7"), ChordName("A", "m7"), ChordName("B", "m7b5")]
  {
    CScale("C");
    MajorTableFromC();
  }

  lemma MajorTableFromC()
    ensures Diatonic(Canonical, MajorPattern) ==
      [ChordName("C", "M7"), ChordName("D", "m7"), ChordName("E", "m7"), ChordName("F", "M7"),
       ChordName("G", "7"), ChordName("A", "m7"), ChordName("B", "m7b5")]
  {
    var d := Diatonic(Canonical, MajorPattern);
    assert d[0] == ChordName("C", "M7");
    assert d[1] == ChordName("D", "m7");
    assert d[2] == ChordName("E", "m7");
    assert d[3] == ChordName("F", "M7");
    assert d[4] == ChordName("G", "7");
    assert d[5] == ChordName("A", "m7");
    assert d[6] == ChordName("B", "m7b5");
  }

  /**
   * The table `_set_minor_attr` builds: the major-key qualities read from the
   * sixth degree on, which are the qualities of the natural-minor degrees.
   */
  lemma ResortedFromSixth()
    ensures Rotate(SortedDiaChordForm, 5) ==
      [Form("m", "m7"), Form("mb5", "m7b5"), Form("", "M7"), Form("m", "m7"),
       Form("m", "m7"), Form("", "M7"), Form("", "7")]
  {
    var r := Rotate(SortedDiaChordForm, 5);
    assert r[0] == SortedDiaChordForm[5] && r[1] == SortedDiaChordForm[6] && r[2] == SortedDiaChordForm[0];
    assert r[3] == SortedDiaChordForm[1] && r[4] == SortedDiaChordForm[2];
    assert r[5] == SortedDiaChordForm[3] && r[6] == SortedDiaChordForm[4];
  }

  /**
   * Key Cm: the natural-minor pitch classes C D Eb F G Ab Bb, still carrying
   * the major-key qualities, because the rotated table is never read.
   */
  lemma DiatonicOfCMinor()
    ensures DiatonicFor("Cm") ==
      [ChordName("C", "M7"), ChordName("D", "m7"), ChordName("Eb", "m7"), ChordName("F", "M7"),
       ChordName("G", "7"), ChordName("Ab", "m7"), ChordName("Bb", "m7b5")]
  {
    CScale("Cm");
    assert PatternFor("Cm") == MinorPattern;
    MinorTableFromC();
  }

  lemma MinorTableFromC()
    ensures Diatonic(Canonical, MinorPattern) ==
      [ChordName("C", "M7"), ChordName("D", "m7"), ChordName("Eb", "m7"), ChordName("F", "M7"),
       ChordName("G", "7"), ChordName("Ab", "m7"), ChordName("Bb", "m7b5")]
  {
    var d := Diatonic(Canonical, MinorPattern);
    assert d[0] == ChordName("C", "M7");
    assert d[1] == ChordName("D", "m7");
    assert d[2] == ChordName("Eb", "m7");
    assert d[3] == ChordName("F", "M7");
    assert d[4] == ChordName("G", "7");
    assert d[5] == ChordName("Ab", "m7");
    assert d[6] == ChordName("Bb", "m7b5");
  }
}
