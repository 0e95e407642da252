/** What the Voicer layer guarantees about parsing, spelling and octave placement. */
module VoicingLaws {
  import opened Outcomes
  import opened Chromatic
  import opened Harmony
  import opened HarmonyLaws
  import opened Voicing

  /** A bare degree names the key's diatonic chord of that degree, whatever the key. */
  lemma ParseBareDegree(key: string, c: char)
    requires KeyCheck(key).Ok? && '0' < c < '8'
    ensures Parse(key, [c]) == Ok(DiatonicFor(key)[Degree(c)])
  {
  }

  /** A symbol with a suffix reads the altered offset from `scale` with Python's indexing. */
  lemma ParseSuffix(scale: seq<string>, pattern: seq<nat>, diatonic: seq<ChordName>, chordNum: string)
    requires |pattern| == 7 && |diatonic| == 7 && |chordNum| > 1 && '0' < chordNum[0] < '8'
    ensures var a := AlteredIndex(pattern, Degree(chordNum[0]), chordNum[1..]);
      var r := ParseChordNum(scale, pattern, diatonic, chordNum);
      (r.Ok? <==> -|scale| <= a < |scale|)
      && (r.Ok? ==> r.value == ChordName(scale[a % |scale|], "7"))
      && (r.Err? ==> r.error == IndexOutOfRange(a))
  {
  }

  /**
   * A degree with a suffix is a dominant seventh whose root lies `a`
   * semitones above the tonic, counted cyclically, where `a` is the degree's
   * offset altered by the suffix; it fails only when `a` reaches 12.
   */
  lemma ParseAltered(key: string, t: nat, chordNum: string, a: int)
    requires KeyCheck(key) == Ok(t) && |chordNum| > 1 && '0' < chordNum[0] < '8'
    requires a == AlteredIndex(PatternFor(key), Degree(chordNum[0]), chordNum[1..])
    ensures -1 <= a <= 12
    ensures Parse(key, chordNum).Ok? <==> a < 12
    ensures a < 12 ==> Parse(key, chordNum) == Ok(ChordName(Canonical[(t + a) % 12], "7"))
    ensures a == 12 ==> Parse(key, chordNum) == Err(IndexOutOfRange(12))
  {
    var pattern := PatternFor(key);
    var s := RotatedScale(t);
    var r := Parse(key, chordNum);
    assert (r.Ok? <==> -12 <= a < 12) && (r.Ok? ==> r.value == ChordName(s[a % 12], "7"))
        && (r.Err? ==> r.error == IndexOutOfRange(a)) by {
      var dia := DiatonicFor(key);
      assert r == ParseChordNum(s, pattern, dia, chordNum);
      ParseSuffix(s, pattern, dia, chordNum);
      ModTwelve(a, |s|);
    }
    if a < 12 {
      RotatedScaleWrap(t, a);
    }
  }

  /**
   * With a valid key, parsing fails exactly on an empty symbol, a first
   * character outside 1-7, or a sharpened seventh degree of a major key.
   */
  lemma ParseFails(key: string, t: nat, chordNum: string)
    requires KeyCheck(key) == Ok(t)
    ensures Parse(key, chordNum).Err? <==>
      |chordNum| == 0 || !('0' < chordNum[0] < '8')
      || (|chordNum| > 1 && chordNum[0] == '7' && 'm' !in key
          && '#' in chordNum[1..] && 'b' !in chordNum[1..])
  {
    var dia := DiatonicFor(key);
    assert Parse(key, chordNum) == ParseChordNum(RotatedScale(t), PatternFor(key), dia, chordNum);
    if |chordNum| > 1 && '0' < chordNum[0] < '8' {
      ParseAltered(key, t, chordNum, AlteredIndex(PatternFor(key), Degree(chordNum[0]), chordNum[1..]));
      PatternTop(key, Degree(chordNum[0]));
    }
  }

  /** Only the seventh degree of a major key sits eleven semitones above the tonic. */
  lemma PatternTop(key: string, d: nat)
    requires d < 7
    ensures PatternFor(key)[d] == 11 <==> 'm' !in key && d == 6
  {
  }

  /** The highest octave is fixed by which labels put the note below the top. */
  lemma HighestOctaveIs(note: string, octs: seq<string>, below: seq<string>, j: nat)
    requires j < |octs| && note + octs[j] in below
    requires forall i :: j < i < |octs| ==> note + octs[i] !in below
    ensures HighestOctave(note, octs, below) == Some(j)
  {
  }

  /** Placing two runs of tones places each run on its own, one after the other. */
  lemma {:induction false} PlacedAppend(a: seq<string>, b: seq<string>, octs: seq<string>, below: seq<string>)
    ensures Placed(a + b, octs, below) == Placed(a, octs, below) + Placed(b, octs, below)
    decreases |b|
  {
    if b == [] {
      assert a + b == a;
    } else {
      var b' := b[..|b| - 1];
      assert (a + b)[..|a + b| - 1] == a + b';
      assert (a + b)[|a + b| - 1] == b[|b| - 1];
      PlacedAppend(a, b', octs, below);
    }
  }

  /** A tone that fits in no octave is dropped, and the other tones are placed as before. */
  lemma PlacedSkips(a: seq<string>, n: string, b: seq<string>, octs: seq<string>, below: seq<string>)
    requires HighestOctave(n, octs, below).None?
    ensures Placed(a + [n] + b, octs, below) == Placed(a, octs, below) + Placed(b, octs, below)
  {
    assert Emit(n, octs, below) == [];
    var an := a + [n];
    assert an[..|an| - 1] == a && an[|an| - 1] == n;
    assert Placed(an, octs, below) == Placed(a, octs, below);
    PlacedAppend(an, b, octs, below);
  }

  /** When every tone fits, each tone appears once, in order, in its highest fitting octave. */
  lemma {:induction false} PlacedEvery(notes: seq<string>, octs: seq<string>, below: seq<string>)
    requires forall i :: 0 <= i < |notes| ==> HighestOctave(notes[i], octs, below).Some?
    ensures |Placed(notes, octs, below)| == |notes|
    ensures forall i :: 0 <= i < |notes| ==>
      Placed(notes, octs, below)[i] == notes[i] + octs[HighestOctave(notes[i], octs, below).value]
    decreases |notes|
  {
    if notes != [] {
      var init := notes[..|notes| - 1];
      var last := notes[|notes| - 1];
      assert forall i :: 0 <= i < |init| ==> init[i] == notes[i];
      PlacedEvery(init, octs, below);
      var j := HighestOctave(last, octs, below).value;
      assert Emit(last, octs, below) == [last + octs[j]];
      assert Placed(notes, octs, below) == Placed(init, octs, below) + [last + octs[j]];
    }
  }

  /** When no tone fits, nothing is placed. */
  lemma {:induction false} PlacedNone(notes: seq<string>, octs: seq<string>, below: seq<string>)
    requires forall i :: 0 <= i < |notes| ==> HighestOctave(notes[i], octs, below).None?
    ensures Placed(notes, octs, below) == []
    decreases |notes|
  {
    if notes != [] {
      PlacedNone(notes[..|notes| - 1], octs, below);
    }
  }

  /** The part of the four-octave table below the note `Canonical[tk] + Octaves[to]`. */
  function Below(to: nat, tk: nat): seq<string>
    requires to < 4 && tk < 12
  {
    FourOctavesAt(to, tk);
    Sliced(FourOctaves, Canonical[tk] + Octaves[to]).value
  }

  /** A note of the table lies below the top note exactly when it comes earlier in the table. */
  lemma InBelow(o: nat, k: nat, to: nat, tk: nat)
    requires o < 4 && k < 12 && to < 4 && tk < 12
    ensures Canonical[k] + Octaves[o] in Below(to, tk) <==> 12 * o + k < 12 * to + tk
  {
    FourOctavesAt(to, tk);
    FourOctavesAt(o, k);
    SlicedMembership(FourOctaves, Canonical[tk] + Octaves[to], Canonical[k] + Octaves[o]);
    FourOctavesIndex(o, k);
    FourOctavesIndex(to, tk);
  }

  /**
   * A pitch class goes into the top note's octave when it lies below the top
   * note's pitch class, otherwise into the octave beneath, and is dropped
   * when there is no octave beneath.
   */
  lemma PitchPlacement(k: nat, to: nat, tk: nat)
    requires k < 12 && to < 4 && tk < 12
    ensures HighestOctave(Canonical[k], Octaves, Below(to, tk)) ==
      if k < tk then Some(to) else if to > 0 then Some(to - 1) else None
  {
    forall o | 0 <= o < 4
      ensures Canonical[k] + Octaves[o] in Below(to, tk) <==> 12 * o + k < 12 * to + tk
    {
      InBelow(o, k, to, tk);
    }
    if k < tk {
      HighestOctaveIs(Canonical[k], Octaves, Below(to, tk), to);
    } else if to > 0 {
      HighestOctaveIs(Canonical[k], Octaves, Below(to, tk), to - 1);
    }
  }

  /** The flat-spelled names of the pitch classes `ks`. */
  function Names(ks: seq<nat>): (names: seq<string>)
    requires forall i :: 0 <= i < |ks| ==> ks[i] < 12
    ensures |names| == |ks|
  {
    seq(|ks|, i requires 0 <= i < |ks| => Canonical[ks[i]])
  }

  /** The pitch classes `offsets` semitones above the pitch class `m`. */
  function Pitches(m: nat, offsets: seq<nat>): (ks: seq<nat>)
    ensures |ks| == |offsets| && forall i :: 0 <= i < |ks| ==> ks[i] < 12
  {
    seq(|offsets|, i requires 0 <= i < |offsets| => (m + offsets[i]) % 12)
  }

  /**
   * Close voicing below the top note `Canonical[tk] + Octaves[to]`, stated
   * musically: each pitch class in the top note's octave when it lies below
   * the top note's pitch class, otherwise in the octave beneath.
   */
  function Voiced(ks: seq<nat>, to: nat, tk: nat): seq<string>
    requires 0 < to < 4 && forall i :: 0 <= i < |ks| ==> ks[i] < 12
  {
    seq(|ks|, i requires 0 <= i < |ks| => Canonical[ks[i]] + Octaves[if ks[i] < tk then to else to - 1])
  }

  /** `PitchPlacement` for each of the names `ks`. */
  lemma OctavesOfNames(ks: seq<nat>, to: nat, tk: nat)
    requires 0 < to < 4 && tk < 12 && forall i :: 0 <= i < |ks| ==> ks[i] < 12
    ensures forall i :: 0 <= i < |ks| ==>
      HighestOctave(Names(ks)[i], Octaves, Below(to, tk)) == Some(if ks[i] < tk then to else to - 1)
  {
    forall i | 0 <= i < |ks|
      ensures HighestOctave(Names(ks)[i], Octaves, Below(to, tk)) == Some(if ks[i] < tk then to else to - 1)
    {
      PitchPlacement(ks[i], to, tk);
    }
  }

  /**
   * Below a top note above the first octave every pitch class is voiced: in
   * the top note's octave when it lies below the top note's pitch class,
   * otherwise in the octave beneath.
   */
  lemma VoicedBelow(ks: seq<nat>, to: nat, tk: nat)
    requires 0 < to < 4 && tk < 12 && forall i :: 0 <= i < |ks| ==> ks[i] < 12
    ensures Placed(Names(ks), Octaves, Below(to, tk)) == Voiced(ks, to, tk)
  {
    OctavesOfNames(ks, to, tk);
    PlacedAsVoiced(Names(ks), Below(to, tk), ks, to, tk);
  }

  /** Once every name has its octave, placing the names is `Voiced`, whatever the slice. */
  lemma PlacedAsVoiced(notes: seq<string>, below: seq<string>, ks: seq<nat>, to: nat, tk: nat)
    requires 0 < to < 4 && |notes| == |ks| && forall i :: 0 <= i < |ks| ==> ks[i] < 12
    requires forall i :: 0 <= i < |ks| ==> notes[i] == Canonical[ks[i]]
    requires forall i :: 0 <= i < |ks| ==>
      HighestOctave(notes[i], Octaves, below) == Some(if ks[i] < tk then to else to - 1)
    ensures Placed(notes, Octaves, below) == Voiced(ks, to, tk)
  {
    PlacedEvery(notes, Octaves, below);
    var placed, voiced := Placed(notes, Octaves, below), Voiced(ks, to, tk);
    assert |placed| == |voiced|;
    assert forall i :: 0 <= i < |ks| ==> placed[i] == voiced[i];
  }

  /**
   * The position of `m` in a scale rotated by `t` is `(m - t) % 12`, and
   * `o` places further on lies `m + o`, counted cyclically.
   */
  lemma RebaseArith(t: nat, m: nat, o: nat)
    requires t < 12 && m < 12 && o < 12
    ensures 0 <= (m - t) % 12 < 12
    ensures (t + (m - t) % 12) % 12 == m
    ensures (t + ((m - t) % 12 + o) % 12) % 12 == (m + o) % 12
  {
    var p := (m - t) % 12;
    if m >= t {
      assert p == m - t;
    } else {
      assert p == m - t + 12;
    }
    ModAdd(t, p + o);
  }

  /**
   * Rotating a twelve-entry scale rotated by `t` to its entry `m`, found at
   * `(m - t) % 12`, gives the rotation that starts on `m`: entry `o` of it is
   * `o` places above `m`, however the scale was rotated first.
   */
  lemma RotationRebase(c: seq<string>, t: nat, m: nat, o: nat)
    requires |c| == 12 && t < 12 && m < 12 && o < 12
    requires IndexOf(Rotate(c, t), c[m]) == Ok((m - t) % 12)
    ensures SortedChromatic(Rotate(c, t), c[m]).Ok?
    ensures SortedChromatic(Rotate(c, t), c[m]).value[o] == c[(m + o) % 12]
  {
    var p := (m - t) % 12;
    RebaseArith(t, m, o);
    var q := (p + o) % 12;
    ModTwelve(p + o, |Rotate(c, t)|);
    RotatedEntry(c, t, q);
  }

  /** In a twelve-entry scale without repetitions rotated by `t`, entry `m` of the scale is found at `(m - t) % 12`. */
  lemma RotatedPosition(c: seq<string>, t: nat, m: nat)
    requires |c| == 12 && Distinct(c) && t < 12 && m < 12
    ensures IndexOf(Rotate(c, t), c[m]) == Ok((m - t) % 12)
  {
    var p := (m - t) % 12;
    RebaseArith(t, m, 0);
    RotatedEntry(c, t, p);
    RotateDistinct(c, t);
    IndexOfDistinct(Rotate(c, t), p);
  }

  /** Rotating a key's scale to the pitch class `m` gives the scale that starts on `m`, whatever the key. */
  lemma ChordScaleAt(t: nat, m: nat, o: nat)
    requires t < 12 && m < 12 && o < 12
    ensures SortedChromatic(RotatedScale(t), Canonical[m]).Ok?
    ensures SortedChromatic(RotatedScale(t), Canonical[m]).value[o] == Canonical[(m + o) % 12]
  {
    CanonicalDistinct();
    RotatedPosition(Canonical, t, m);
    RotationRebase(Canonical, t, m, o);
  }

  /**
   * The tones of a chord are its quality's offsets counted up from the root
   * in the C-first scale, whatever the key: the key's rotation cancels out.
   */
  lemma ChordTonesAbove(t: nat, m: nat, offsets: seq<nat>)
    requires t < 12 && m < 12 && forall i :: 0 <= i < |offsets| ==> offsets[i] < 12
    ensures SortedChromatic(RotatedScale(t), Canonical[m]).Ok?
    ensures var tones := ChordTones(SortedChromatic(RotatedScale(t), Canonical[m]).value, offsets);
      |tones| == |offsets| && forall i :: 0 <= i < |offsets| ==> tones[i] == Canonical[(m + offsets[i]) % 12]
  {
    ChordScaleAt(t, m, 0);
    var cs := SortedChromatic(RotatedScale(t), Canonical[m]).value;
    forall o | 0 <= o < 12
      ensures cs[o] == Canonical[(m + o) % 12]
    {
      ChordScaleAt(t, m, o);
    }
    TonesFrom(cs, m, offsets);
  }

  /** Reading offsets from a scale that starts on `m` spells them upward from `m`. */
  lemma TonesFrom(cs: seq<string>, m: nat, offsets: seq<nat>)
    requires |cs| == 12 && forall i :: 0 <= i < |offsets| ==> offsets[i] < 12
    requires forall o :: 0 <= o < 12 ==> cs[o] == Canonical[(m + o) % 12]
    ensures var tones := ChordTones(cs, offsets);
      |tones| == |offsets| && forall i :: 0 <= i < |offsets| ==> tones[i] == Canonical[(m + offsets[i]) % 12]
  {
  }

  lemma SpelledNames(tones: seq<string>, m: nat, offsets: seq<nat>)
    requires |tones| == |offsets|
    requires forall i :: 0 <= i < |offsets| ==> tones[i] == Canonical[(m + offsets[i]) % 12]
    ensures tones == Names(Pitches(m, offsets))
  {
  }

  /** A parsed chord's quality is a key of the chord-tone table. */
  lemma ParsedQuality(key: string, t: nat, chordNum: string)
    requires KeyCheck(key) == Ok(t) && Parse(key, chordNum).Ok?
    ensures Parse(key, chordNum).value.quality in ChordTone
  {
    var dia := DiatonicFor(key);
    assert Parse(key, chordNum) == ParseChordNum(RotatedScale(t), PatternFor(key), dia, chordNum);
  }

  /** `four_part_voicing` after a successful parse and slice: the chord's tones placed below the top. */
  lemma VoiceWithParsed(scale: seq<string>, pattern: seq<nat>, diatonic: seq<ChordName>, chordNum: string, top: string)
    requires |scale| == 12 && |pattern| == 7 && |diatonic| == 7
    requires forall i :: 0 <= i < 7 ==> diatonic[i].root in scale && diatonic[i].quality in ChordTone
    requires ParseChordNum(scale, pattern, diatonic, chordNum).Ok? && top in FourOctaves
    ensures var chord := ParseChordNum(scale, pattern, diatonic, chordNum).value;
      chord.root in scale && chord.quality in ChordTone
      && (ChordToneShape(chord.quality);
          VoiceWith(scale, pattern, diatonic, chordNum, top) ==
            Ok(Placed(ChordTones(SortedChromatic(scale, chord.root).value, ChordTone[chord.quality]),
                      Octaves, Sliced(FourOctaves, top).value)))
  {
  }

  /** The tones `four_part_voicing` reads for the quality `q` on the root `Canonical[m]` in the key at `t`. */
  function KeyChordTones(t: nat, m: nat, q: string): seq<string>
    requires t < 12 && m < 12 && q in ChordTone
  {
    ChordScaleAt(t, m, 0);
    ChordToneShape(q);
    ChordTones(SortedChromatic(RotatedScale(t), Canonical[m]).value, ChordTone[q])
  }

  /** Those tones are the quality's offsets counted up from `m`, whatever the key. */
  lemma SpelledChord(t: nat, m: nat, q: string)
    requires t < 12 && m < 12 && q in ChordTone
    ensures KeyChordTones(t, m, q) == Names(Pitches(m, ChordTone[q]))
  {
    ChordToneShape(q);
    var offsets := ChordTone[q];
    ChordTonesAbove(t, m, offsets);
    SpelledNames(KeyChordTones(t, m, q), m, offsets);
  }

  /**
   * Once the symbol parses to the root `Canonical[m]` and the quality `q`
   * and the top note is in the table, the voicing is the placement of the
   * quality's pitch classes counted up from `m`, whatever the key.
   */
  lemma VoiceAsPlaced(key: string, t: nat, chordNum: string, m: nat, q: string, top: string)
    requires KeyCheck(key) == Ok(t) && m < 12 && Parse(key, chordNum) == Ok(ChordName(Canonical[m], q))
    requires top in FourOctaves
    ensures q in ChordTone
    ensures Voice(key, chordNum, top) ==
      Ok(Placed(Names(Pitches(m, ChordTone[q])), Octaves, Sliced(FourOctaves, top).value))
  {
    ParsedQuality(key, t, chordNum);
    SpelledChord(t, m, q);
    VoiceWithParsed(RotatedScale(t), PatternFor(key), DiatonicFor(key), chordNum, top);
  }

  /**
   * With the chord parsed to `Canonical[m]` and `q`, and a top note
   * `Canonical[tk] + Octaves[to]` above the first octave, every tone is
   * voiced: the quality's pitch classes counted up from `m`, each in the top
   * note's octave when it lies below the top note's pitch class and in the
   * octave beneath otherwise.
   */
  lemma VoiceSpelled(key: string, t: nat, chordNum: string, m: nat, q: string, to: nat, tk: nat)
    requires KeyCheck(key) == Ok(t) && m < 12 && Parse(key, chordNum) == Ok(ChordName(Canonical[m], q))
    requires 0 < to < 4 && tk < 12
    ensures q in ChordTone
    ensures Voice(key, chordNum, Canonical[tk] + Octaves[to]) == Ok(Voiced(Pitches(m, ChordTone[q]), to, tk))
  {
    FourOctavesAt(to, tk);
    VoiceAsPlaced(key, t, chordNum, m, q, Canonical[tk] + Octaves[to]);
    VoicedBelow(Pitches(m, ChordTone[q]), to, tk);
  }

  /** With the top note C1, `Canonical[0] + Octaves[0]`, nothing lies below it, so every tone is dropped. */
  lemma VoiceAtBottom(key: string, t: nat, chordNum: string, m: nat, q: string)
    requires KeyCheck(key) == Ok(t) && m < 12 && Parse(key, chordNum) == Ok(ChordName(Canonical[m], q))
    ensures Voice(key, chordNum, Canonical[0] + Octaves[0]) == Ok([])
  {
    var top := Canonical[0] + Octaves[0];
    assert Sliced(FourOctaves, top).value == [] by {
      FourOctavesIndex(0, 0);
    }
    VoiceAsPlaced(key, t, chordNum, m, q, top);
    PlacedBelowNothing(Names(Pitches(m, ChordTone[q])), Octaves);
  }

  /** With nothing below the top note, no tone is placed. */
  lemma PlacedBelowNothing(notes: seq<string>, octs: seq<string>)
    ensures Placed(notes, octs, []) == []
  {
  }

  /** Over any engine's tables: the parse error, else ValueError exactly when the top note is missing. */
  lemma VoiceWithErrors(scale: seq<string>, pattern: seq<nat>, diatonic: seq<ChordName>, chordNum: string, top: string)
    requires |scale| == 12 && |pattern| == 7 && |diatonic| == 7
    requires forall i :: 0 <= i < 7 ==> diatonic[i].root in scale && diatonic[i].quality in ChordTone
    ensures var p := ParseChordNum(scale, pattern, diatonic, chordNum);
      var r := VoiceWith(scale, pattern, diatonic, chordNum, top);
      (p.Err? ==> r == Err(p.error))
      && (p.Ok? ==> (r.Ok? <==> top in FourOctaves))
      && (p.Ok? && top !in FourOctaves ==> r == Err(NotInList(top)))
  {
  }

  /**
   * Voicing fails with the parse error when the symbol does not parse, and
   * otherwise exactly when the top note is not in the four-octave table,
   * with ValueError.
   */
  lemma VoiceErrors(key: string, t: nat, chordNum: string, top: string)
    requires KeyCheck(key) == Ok(t)
    ensures Parse(key, chordNum).Err? ==> Voice(key, chordNum, top) == Err(Parse(key, chordNum).error)
    ensures Parse(key, chordNum).Ok? ==> (Voice(key, chordNum, top).Ok? <==> top in FourOctaves)
    ensures Parse(key, chordNum).Ok? && top !in FourOctaves ==> Voice(key, chordNum, top) == Err(NotInList(top))
  {
    VoiceWithErrors(RotatedScale(t), PatternFor(key), DiatonicFor(key), chordNum, top);
  }

  /** Over any engine's tables: every voiced note lies in the table strictly below the top note. */
  lemma VoiceWithBelow(scale: seq<string>, pattern: seq<nat>, diatonic: seq<ChordName>, chordNum: string, top: string, x: string)
    requires |scale| == 12 && |pattern| == 7 && |diatonic| == 7
    requires forall i :: 0 <= i < 7 ==> diatonic[i].root in scale && diatonic[i].quality in ChordTone
    requires VoiceWith(scale, pattern, diatonic, chordNum, top).Ok?
    requires x in VoiceWith(scale, pattern, diatonic, chordNum, top).value
    ensures top in FourOctaves && x in FourOctaves
    ensures IndexOf(FourOctaves, x).value < IndexOf(FourOctaves, top).value
  {
    assert x in Sliced(FourOctaves, top).value;
    SlicedMembership(FourOctaves, top, x);
  }

  /** Every voiced note is a note of the four-octave table strictly below the top note. */
  lemma VoiceBelowTop(key: string, t: nat, chordNum: string, top: string, x: string)
    requires KeyCheck(key) == Ok(t) && Voice(key, chordNum, top).Ok? && x in Voice(key, chordNum, top).value
    ensures top in FourOctaves && x in FourOctaves
    ensures IndexOf(FourOctaves, x).value < IndexOf(FourOctaves, top).value
  {
    VoiceWithBelow(RotatedScale(t), PatternFor(key), DiatonicFor(key), chordNum, top, x);
  }
}
