/**
 * The engine as an object. A `Voicer` carries the fields that the
 * `ChromaticScale`, `Chord` and `Voicer` constructors set up for one key,
 * updates them through the same steps, and answers voicing requests.
 * `Valid` ties every field that is read after construction to the
 * functional model of the key.
 */
module Engine {
  import opened Outcomes
  import opened Chromatic
  import opened Harmony
  import opened Voicing

  class Voicer {
    var chromaticScale: seq<string>
    var longChromatic: seq<string>
    const key: string
    var diatonicNoteIdx: seq<nat>
    /** Set only for a minor key, and never read afterwards. */
    var resortDiaChordForm: Option<seq<Form>>
    var diatonic: seq<ChordName>

    /** The state a successful construction leaves behind, in terms of the functional model. */
    ghost predicate Valid()
      reads this
    {
      && KeyCheck(key).Ok?
      && chromaticScale == Rotate(Canonical, KeyCheck(key).value)
      && longChromatic == FourOctaves
      && diatonicNoteIdx == PatternFor(key)
      && diatonic == Diatonic(chromaticScale, diatonicNoteIdx)
    }

    /**
     * `Voicer(key)`: the scale starts C-first, `ChromaticScale.__init__`
     * builds the four-octave table and rotates the scale, then the rest of
     * `Chord.__init__` chooses the mode's pattern and reads off the diatonic
     * chords. Keys that make the source raise are refused by `Create`.
     */
    constructor (key: string)
      requires KeyCheck(key).Ok?
      ensures Valid() && this.key == key
    {
      this.key := key;
      chromaticScale := Canonical;
      longChromatic := [];
      diatonicNoteIdx := [];
      resortDiaChordForm := None;
      diatonic := [];
      new;
      InitChromaticScale(key);
      InitChord(key);
    }

    /**
     * The body of `ChromaticScale.__init__` once the C-first scale is in
     * place: the four-octave table is built from it, then the scale is
     * rotated to the key's first character.
     */
    method InitChromaticScale(key: string)
      requires KeyCheck(key).Ok? && chromaticScale == Canonical
      modifies this`chromaticScale, this`longChromatic
      ensures longChromatic == FourOctaves
      ensures chromaticScale == Rotate(Canonical, KeyCheck(key).value)
    {
      longChromatic := LongTable(chromaticScale, Octaves);
      KeyScale(key);
      var tonic := SortChromaticByKey(key);
    }

    /**
     * The rest of `Chord.__init__` once the scale is rotated: the mode's
     * pattern is chosen and the diatonic chords are read off the scale.
     */
    method InitChord(key: string)
      requires |chromaticScale| == 12
      modifies this`diatonicNoteIdx, this`resortDiaChordForm, this`diatonic
      ensures diatonicNoteIdx == PatternFor(key)
      ensures diatonic == Diatonic(chromaticScale, diatonicNoteIdx)
      ensures 'm' in key ==> resortDiaChordForm == Some(Rotate(SortedDiaChordForm, 5))
      ensures 'm' !in key ==> resortDiaChordForm == old(resortDiaChordForm)
    {
      SetModeAttr(key);
      diatonic := GetDiatonic();
    }

    /**
     * The mode dispatch of `Chord.__init__`: `'m'` anywhere in the key selects
     * minor; a major key leaves the rotated quality table unset.
     */
    method SetModeAttr(key: string)
      modifies this`diatonicNoteIdx, this`resortDiaChordForm
      ensures diatonicNoteIdx == PatternFor(key)
      ensures 'm' in key ==> resortDiaChordForm == Some(Rotate(SortedDiaChordForm, 5))
      ensures 'm' !in key ==> resortDiaChordForm == old(resortDiaChordForm)
    {
      if 'm' in key {
        SetMinorAttr();
      } else {
        SetMajorAttr();
      }
    }

    /**
     * `_sort_chromatic_by`: find the key's first character in the current
     * scale and rotate the scale to start there; on failure the scale is
     * left as it was.
     */
    method SortChromaticByKey(key: string) returns (r: Result<nat>)
      modifies this`chromaticScale
      ensures r == FirstCharIndex(old(chromaticScale), key)
      ensures r.Ok? ==> chromaticScale == Rotate(old(chromaticScale), r.value)
      ensures r.Err? ==> chromaticScale == old(chromaticScale)
    {
      var prevScale := chromaticScale;
      r := FirstCharIndex(prevScale, key);
      if r.Ok? {
        var idx := r.value;
        chromaticScale := prevScale[idx..] + prevScale[..idx];
      }
    }

    /** `sort_chromatic_by`: a rotation of the current scale to `key`, leaving the scale alone. */
    method SortChromaticBy(key: string) returns (r: Result<seq<string>>)
      ensures r == SortedChromatic(chromaticScale, key)
    {
      var prevScale := chromaticScale;
      var idx := IndexOf(prevScale, key);
      if idx.Err? {
        return Err(idx.error);
      }
      RotateAt(prevScale, idx.value);
      r := Ok(prevScale[idx.value..] + prevScale[..idx.value]);
    }

    /** `get_sliced_chromatic`: the four-octave table up to, not including, the top note. */
    method GetSlicedChromatic(topNote: string) returns (r: Result<seq<string>>)
      ensures r == Sliced(longChromatic, topNote)
    {
      var topNoteIdx := IndexOf(longChromatic, topNote);
      if topNoteIdx.Err? {
        return Err(topNoteIdx.error);
      }
      r := Ok(longChromatic[..topNoteIdx.value]);
    }

    /** `_set_minor_attr`: the minor pattern, and the degree-quality table rotated to start at row 5. */
    method SetMinorAttr()
      modifies this`diatonicNoteIdx, this`resortDiaChordForm
      ensures diatonicNoteIdx == MinorPattern
      ensures resortDiaChordForm == Some(Rotate(SortedDiaChordForm, 5))
    {
      diatonicNoteIdx := MinorPattern;
      resortDiaChordForm := Some(SortedDiaChordForm[5..] + SortedDiaChordForm[..5]);
    }

    /** `_set_major_attr`: the major pattern. */
    method SetMajorAttr()
      modifies this`diatonicNoteIdx
      ensures diatonicNoteIdx == MajorPattern
    {
      diatonicNoteIdx := MajorPattern;
    }

    /** `_get_diatonic`: one chord per entry of the pattern, read from the current scale. */
    method GetDiatonic() returns (chords: seq<ChordName>)
      requires |diatonicNoteIdx| <= |SortedDiaChordForm|
      requires forall i :: 0 <= i < |diatonicNoteIdx| ==> diatonicNoteIdx[i] < |chromaticScale|
      ensures chords == Diatonic(chromaticScale, diatonicNoteIdx)
    {
      chords := [];
      for idx := 0 to |diatonicNoteIdx|
        invariant |chords| == idx
        invariant forall k :: 0 <= k < idx ==>
          chords[k] == ChordName(chromaticScale[diatonicNoteIdx[k]], SortedDiaChordForm[k].seventh)
      {
        var note := diatonicNoteIdx[idx];
        chords := chords + [ChordName(chromaticScale[note], SortedDiaChordForm[idx].seventh)];
      }
    }

    /** `_parse_chord_num` on the current tables. */
    method ParseChordNumber(chordNum: string) returns (r: Result<ChordName>)
      requires |diatonicNoteIdx| == 7 && |diatonic| == 7
      ensures r == ParseChordNum(chromaticScale, diatonicNoteIdx, diatonic, chordNum)
    {
      if |chordNum| == 0 {
        return Err(EmptyChordNum);
      }
      var chordRoot, chordForm := chordNum[0], chordNum[1..];
      if !('0' < chordRoot < '8') {
        return Err(BadDegree(chordRoot));
      }
      var degree := (chordRoot as int) - ('1' as int);
      if |chordForm| > 0 {
        var rootIdx: int := diatonicNoteIdx[degree];
        if 'b' in chordForm {
          rootIdx := rootIdx - 1;
        }
        if '#' in chordForm {
          rootIdx := rootIdx + 1;
        }
        var root := PyIndex(chromaticScale, rootIdx);
        if root.Err? {
          return Err(root.error);
        }
        r := Ok(ChordName(root.value, "7"));
      } else {
        r := Ok(diatonic[degree]);
      }
    }

    /**
     * `_set_octave`: for each tone, try the octave labels from the highest
     * down and keep the first that lies below the top note; a tone with no
     * such label is dropped.
     */
    method SetOctave(notes: seq<string>, topNote: string) returns (r: Result<seq<string>>)
      ensures r.Ok? <==> topNote in longChromatic
      ensures r.Err? ==> r.error == NotInList(topNote)
      ensures r.Ok? ==> r.value == Placed(notes, Octaves, Sliced(longChromatic, topNote).value)
    {
      var sliced := GetSlicedChromatic(topNote);
      if sliced.Err? {
        return Err(sliced.error);
      }
      var allScale := sliced.value;
      var voiced: seq<string> := [];
      for i := 0 to |notes|
        invariant voiced == Placed(notes[..i], Octaves, allScale)
      {
        PlacedStep(notes, i, Octaves, allScale);
        var emitted := PlaceNote(notes[i], allScale);
        voiced := voiced + emitted;
      }
      assert notes[..|notes|] == notes;
      r := Ok(voiced);
    }

    /**
     * `four_part_voicing`: parse the symbol, rotate the scale to the chord
     * root, collect the quality's tones in order and place them below the
     * top note.
     */
    method FourPartVoicing(chordNum: string, topNote: string) returns (r: Result<seq<string>>)
      requires Valid()
      ensures r == Voice(key, chordNum, topNote)
    {
      var parsed := ParseChordNumber(chordNum);
      if parsed.Err? {
        return Err(parsed.error);
      }
      var root, chordForm := parsed.value.root, parsed.value.quality;
      var sortedScale := SortChromaticBy(root);
      var chordScale := sortedScale.value;
      ChordToneShape(chordForm);
      var voicingNotes := CollectTones(chordScale, ChordTone[chordForm]);
      r := SetOctave(voicingNotes, topNote);
    }
  }

  /**
   * The inner loop of `_set_octave` for one tone: the octave labels from the
   * highest down, stopping at the first that puts the tone in `allScale`.
   */
  method PlaceNote(note: string, allScale: seq<string>) returns (emitted: seq<string>)
    ensures emitted == Emit(note, Octaves, allScale)
  {
    emitted := [];
    var j := |Octaves|;
    assert Octaves[..j] == Octaves;
    while j > 0
      invariant 0 <= j <= |Octaves|
      invariant HighestOctave(note, Octaves[..j], allScale) == HighestOctave(note, Octaves, allScale)
    {
      var result := note + Octaves[j - 1];
      assert Octaves[..j][..j - 1] == Octaves[..j - 1];
      if result in allScale {
        emitted := [result];
        return;
      }
      j := j - 1;
    }
  }

  /** The loop of `four_part_voicing` that reads the chord's tones off the rotated scale, in order. */
  method CollectTones(chordScale: seq<string>, offsets: seq<nat>) returns (voicingNotes: seq<string>)
    requires forall i :: 0 <= i < |offsets| ==> offsets[i] < |chordScale|
    ensures voicingNotes == ChordTones(chordScale, offsets)
  {
    voicingNotes := [];
    for i := 0 to |offsets|
      invariant |voicingNotes| == i
      invariant forall k :: 0 <= k < i ==> voicingNotes[k] == chordScale[offsets[k]]
    {
      var note := chordScale[offsets[i]];
      voicingNotes := voicingNotes + [note];
    }
  }

  /** Rotating the C-first scale as `_sort_chromatic_by` does for a valid key gives the key's scale. */
  lemma KeyScale(key: string)
    requires KeyCheck(key).Ok?
    ensures FirstCharIndex(Canonical, key) == KeyCheck(key)
  {
  }

  /**
   * What a valid engine holds: a key of one or two characters, a scale of
   * twelve distinct names starting on the key's letter, the C-first
   * four-octave table, and seven diatonic chords led by the major seventh
   * on the key's letter.
   */
  lemma ValidState(v: Voicer)
    requires v.Valid()
    ensures 0 < |v.key| < 3 && |v.chromaticScale| == 12 && Distinct(v.chromaticScale)
    ensures v.chromaticScale[0] == [v.key[0]]
    ensures |v.longChromatic| == 48 && v.longChromatic[0] == "C1"
    ensures |v.diatonic| == 7 && v.diatonic[0] == ChordName([v.key[0]], "M7")
  {
    var t := KeyCheck(v.key).value;
    assert v.chromaticScale == RotatedScale(t);
    RotatedScaleDistinct(t);
    FourOctavesAt(0, 0);
    DiatonicAt(v.chromaticScale, v.diatonicNoteIdx, 0);
  }

  /** One more tone placed: the placement of the prefix, then that tone's contribution. */
  lemma PlacedStep(notes: seq<string>, i: nat, octs: seq<string>, below: seq<string>)
    requires i < |notes|
    ensures Placed(notes[..i + 1], octs, below) == Placed(notes[..i], octs, below) + Emit(notes[i], octs, below)
  {
    assert notes[..i + 1][..i] == notes[..i];
  }

  /**
   * `Voicer(key)` with its failure points: a key of three or more
   * characters fails `assert_key`, an empty key fails on `key[0]`, and a
   * first character that is not a natural note name is not found.
   */
  method Create(key: string) returns (r: Result<Voicer>)
    ensures r.Err? <==> KeyCheck(key).Err?
    ensures r.Err? ==> r.error == KeyCheck(key).error
    ensures r.Ok? ==> fresh(r.value) && r.value.Valid() && r.value.key == key
  {
    var check := KeyCheck(key);
    if check.Err? {
      return Err(check.error);
    }
    var v := new Voicer(key);
    r := Ok(v);
  }
}
