/**
 * The worked examples of the Chord and Voicer layers, in the key of C unless
 * stated otherwise, each derived from the general laws.
 */
module VoicingExamples {
  import opened Outcomes
  import opened Chromatic
  import opened Harmony
  import opened HarmonyLaws
  import opened Voicing
  import opened VoicingLaws

  /** Key Db: only the letter is looked up, so the scale starts on D, and the key is major. */
  lemma DbKey()
    ensures KeyCheck("Db") == Ok(2) && ScaleFor("Db")[0] == "D" && PatternFor("Db") == MajorPattern
  {
    assert Canonical[2] == ['D'];
    assert IndexOf(Canonical, "D") == Ok(2);
  }

  /** The tonic of the C-first scale; stated once so that the voicing examples need not compute it. */
  lemma DegreeOneInC()
    ensures Canonical[0] == "C"
  {
  }

  /** Key C, "1": the tonic major seventh. */
  lemma ParseOneInC()
    ensures Parse("C", "1") == Ok(ChordName("C", "M7"))
  {
    ParseBareDegree("C", '1');
    DiatonicOfC();
  }

  /** Key C, "5": the dominant seventh on G. */
  lemma ParseFiveInC()
    ensures Parse("C", "5") == Ok(ChordName("G", "7"))
  {
    ParseBareDegree("C", '5');
    DiatonicOfC();
  }

  lemma AlteredInC()
    ensures AlteredIndex(PatternFor("C"), Degree("2b7"[0]), "2b7"[1..]) == 1 && Canonical[1] == "Db"
    ensures AlteredIndex(PatternFor("C"), Degree("3b7"[0]), "3b7"[1..]) == 3 && Canonical[3] == "Eb"
    ensures AlteredIndex(PatternFor("C"), Degree("1b"[0]), "1b"[1..]) == -1 && Canonical[11] == "B"
    ensures AlteredIndex(PatternFor("C"), Degree("2b#"[0]), "2b#"[1..]) == 2 && Canonical[2] == "D"
    ensures AlteredIndex(PatternFor("C"), Degree("7#"[0]), "7#"[1..]) == 12
    ensures AlteredIndex(PatternFor("Cm"), Degree("7#"[0]), "7#"[1..]) == 11
  {
    assert "2b7"[1..] == "b7" && "3b7"[1..] == "b7" && "1b"[1..] == "b";
    assert "2b#"[1..] == "b#" && "7#"[1..] == "#";
  }

  /** Key C, "2b7": the flattened second degree as a dominant seventh, Db7. */
  lemma ParseFlatTwoInC()
    ensures Parse("C", "2b7") == Ok(ChordName("Db", "7"))
  {
    CScale("C");
    AlteredInC();
    ParseAltered("C", 0, "2b7", 1);
  }

  /** Key C, "3b7": Eb7. */
  lemma ParseFlatThreeInC()
    ensures Parse("C", "3b7") == Ok(ChordName("Eb", "7"))
  {
    CScale("C");
    AlteredInC();
    ParseAltered("C", 0, "3b7", 3);
  }

  /** Key C, "1b": the offset -1 wraps round to the last entry of the scale, B7. */
  lemma ParseWrapsInC()
    ensures Parse("C", "1b") == Ok(ChordName("B", "7"))
  {
    CScale("C");
    AlteredInC();
    ParseAltered("C", 0, "1b", -1);
  }

  /** Key C, "2b#": a flat and a sharp together cancel, D7. */
  lemma ParseCancelsInC()
    ensures Parse("C", "2b#") == Ok(ChordName("D", "7"))
  {
    CScale("C");
    AlteredInC();
    ParseAltered("C", 0, "2b#", 2);
  }

  /** Key C, "7#": the offset 12 is past the end of the scale, IndexError. */
  lemma ParseSharpSevenInC()
    ensures Parse("C", "7#") == Err(IndexOutOfRange(12))
  {
    CScale("C");
    AlteredInC();
    ParseAltered("C", 0, "7#", 12);
  }

  /** Key Cm, "7#": the minor seventh degree sits at 10, so the sharp reaches B7. */
  lemma ParseSharpSevenInCMinor()
    ensures Parse("Cm", "7#") == Ok(ChordName("B", "7"))
  {
    CScale("Cm");
    AlteredInC();
    ParseAltered("Cm", 0, "7#", 11);
  }

  /** The top notes the examples use, as table entries; stated once for the same reason. */
  lemma TopNotes()
    ensures Canonical[11] + Octaves[3] == "B4" && Canonical[7] + Octaves[3] == "G4"
    ensures Canonical[0] + Octaves[0] == "C1"
  {
  }

  lemma MajorSeventhOnC()
    ensures Voiced(Pitches(0, ChordTone["M7"]), 3, 11) == ["C4", "E4", "G4", "B3"]
  {
    var v := Voiced(Pitches(0, ChordTone["M7"]), 3, 11);
    assert v[0] == "C4" && v[1] == "E4" && v[2] == "G4" && v[3] == "B3";
  }

  lemma SeventhOnDb()
    ensures Voiced(Pitches(1, ChordTone["7"]), 3, 11) == ["Db4", "F4", "Ab4", "B3"]
  {
    var v := Voiced(Pitches(1, ChordTone["7"]), 3, 11);
    assert v[0] == "Db4" && v[1] == "F4" && v[2] == "Ab4" && v[3] == "B3";
  }

  lemma SeventhOnEbBelowG()
    ensures Voiced(Pitches(3, ChordTone["7"]), 3, 7) == ["Eb4", "G3", "Bb3", "Db4"]
  {
    var v := Voiced(Pitches(3, ChordTone["7"]), 3, 7);
    assert v[0] == "Eb4" && v[1] == "G3" && v[2] == "Bb3" && v[3] == "Db4";
  }

  /** Key C, "1" below B4: the tonic major seventh C4 E4 G4 B3. */
  lemma VoiceOneInC()
    ensures Voice("C", "1", "B4") == Ok(["C4", "E4", "G4", "B3"])
  {
    CScale("C");
    ParseOneInC();
    DegreeOneInC();
    VoiceSpelled("C", 0, "1", 0, "M7", 3, 11);
    TopNotes();
    MajorSeventhOnC();
  }

  /** Key C, "2b7" below B4: Db4 F4 Ab4 B3, the seventh Cb spelled B. */
  lemma VoiceFlatTwoInC()
    ensures Voice("C", "2b7", "B4") == Ok(["Db4", "F4", "Ab4", "B3"])
  {
    CScale("C");
    ParseFlatTwoInC();
    AlteredInC();
    VoiceSpelled("C", 0, "2b7", 1, "7", 3, 11);
    TopNotes();
    SeventhOnDb();
  }

  /** Key C, "3b7" below G4: Eb4 G3 Bb3 Db4; G is not below G4, so it drops an octave. */
  lemma VoiceFlatThreeBelowG()
    ensures Voice("C", "3b7", "G4") == Ok(["Eb4", "G3", "Bb3", "Db4"])
  {
    CScale("C");
    ParseFlatThreeInC();
    AlteredInC();
    VoiceSpelled("C", 0, "3b7", 3, "7", 3, 7);
    TopNotes();
    SeventhOnEbBelowG();
  }

  /** Key C, "1" below C1: nothing lies below the lowest note, so the voicing is empty. */
  lemma VoiceBelowLowestInC()
    ensures Voice("C", "1", "C1") == Ok([])
  {
    CScale("C");
    ParseOneInC();
    DegreeOneInC();
    TopNotes();
    VoiceAtBottom("C", 0, "1", 0, "M7");
  }

  lemma CMajorSeventhBelowG()
    ensures Names([0, 4, 7, 11]) == ["C", "E", "G", "B"]
    ensures Voiced([0, 4, 7, 11], 3, 7) == ["C4", "E4", "G3", "B3"]
  {
    var n := Names([0, 4, 7, 11]);
    assert n[0] == "C" && n[1] == "E" && n[2] == "G" && n[3] == "B";
    var v := Voiced([0, 4, 7, 11], 3, 7);
    assert v[0] == "C4" && v[1] == "E4" && v[2] == "G3" && v[3] == "B3";
  }

  /** Placing C E G B below G4: C4 E4 G3 B3. */
  lemma PlaceBelowG()
    ensures Sliced(FourOctaves, "G4").Ok? &&
            Placed(["C", "E", "G", "B"], Octaves, Sliced(FourOctaves, "G4").value) == ["C4", "E4", "G3", "B3"]
  {
    TopNotes();
    FourOctavesAt(3, 7);
    VoicedBelow([0, 4, 7, 11], 3, 7);
    CMajorSeventhBelowG();
  }
}
