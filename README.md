# Four-part voicing engine, modelled in Dafny

This project models the music-theory engine in `refactoring.py`. The engine
turns a scale-degree chord symbol such as `"1"` or `"2b7"`, in a given key,
into a list of octave-qualified note names such as
`["Db4", "F4", "Ab4", "B3"]`. Every note in the list lies below a ceiling
note, the top note. The engine has three layers, all of them modelled:

- **`ChromaticScale`** (module `Chromatic`). Twelve flat-spelled pitch classes,
  C first, and a 48-entry four-octave table built from them. The scale is
  rotated so that the key's first character comes first. The four-octave
  table is sliced below a top note.
- **`Chord`** (module `Harmony`, laws in `HarmonyLaws`). `assert_key`, the
  major and minor semitone patterns, the degree-quality table, the
  chord-tone offsets and the seven diatonic chords of a key.
- **`Voicer`** (module `Voicing`, laws in `VoicingLaws`, examples in
  `VoicingExamples`). Parsing the chord symbol, reading the chord tones off
  a scale rotated to the root, and giving each tone the highest octave that
  keeps it below the top note.

Two views are modelled:

- **The functional view.** `Chromatic`, `Harmony` and `Voicing` state what
  each operation computes, as functions over values.
  `Voice(key, chordNum, top)` is `four_part_voicing` on the engine built
  for `key`.
- **The object view.** Module `Engine`, class `Voicer`, holds the fields
  that the Python constructors chain (`ChromaticScale` → `Chord` →
  `Voicer`) sets up. The methods update those fields step by step, with the
  same loops as the Python code. Each method is proved equal to the
  matching function. `FourPartVoicing` on a valid engine returns exactly
  `Voice(key, chordNum, top)`.

Python exceptions become values of the `Error` datatype (module `Outcomes`),
carried in a `Result`:

| Error | Python failure |
|---|---|
| `KeyTooLong` | the `assert` in `assert_key` |
| `EmptyKey` | `key[0]` on an empty key |
| `NotInList(x)` | `ValueError` from `.index` |
| `EmptyChordNum` | the unpacking of an empty `chord_num` |
| `BadDegree(c)` | the degree `assert` |
| `IndexOutOfRange(i)` | the `IndexError` at index 12 |

The model follows the code as written, including:

- Only `key[0]` drives the rotation, so the key `"Db"` rotates the scale to
  `D`.
- The four-octave table is always in C-first order, because it is built
  before the rotation.
- A minor key gets the minor semitone pattern but keeps the major-key
  qualities. The rotated quality table that `_set_minor_attr` builds is never
  read (`HarmonyLaws.DiatonicOfCMinor` gives the Cm table).
- In the suffix, `b` and `#` together cancel, and any other character is
  ignored.
- An altered index of -1 wraps to the last entry, through Python's negative
  indexing.
- A sharpened seventh degree in a major key reaches index 12 and fails with
  `IndexError`.
- A tone that fits in no octave below the top note is dropped silently, so
  the output can be shorter than the chord.

Three of these points are where a musical reading and the code part ways;
the model follows the code in each:

- A natural-minor reading would read the qualities from the rotated table
  (m7, m7b5, M7, …); the code reads the unrotated one.
- A strict chord-symbol reading would reject a suffix with both `b` and `#`,
  or with other characters; the code accepts it.
- A strict voicing would fail on a tone that fits below no octave label; the
  code drops the tone.

## Model

| member | source | states |
|---|---|---|
| Chromatic.IndexOf | refactoring.py:42 | `.index`: `Ok` exactly when the item is present, at its first position; otherwise `ValueError` (`NotInList`) |
| Chromatic.IndexOfDistinct | refactoring.py:51 | in a sequence without repetitions, `.index` finds every entry at its own position |
| Chromatic.PyIndex | refactoring.py:152 | Python indexing: defined exactly on `-n .. n-1`, reads position `i mod n`, and fails with `IndexError(i)` elsewhere |
| Chromatic.Rotate | refactoring.py:33 | `s[i:] + s[:i]` keeps the length of `s` |
| Chromatic.RotatePermutes | refactoring.py:33 | `s[i:] + s[:i]` is a permutation of `s` |
| Chromatic.RotateAt | refactoring.py:33 | entry `k` of the rotation by `i` is entry `(i + k) mod n` of the original |
| Chromatic.RotateBack | refactoring.py:43 | rotating by `i`, then by `n - i`, restores the sequence |
| Chromatic.RotateDistinct | refactoring.py:33 | a rotation of a sequence without repetitions has no repetitions |
| Chromatic.RotatedEntry | refactoring.py:33 | entry `k` of a twelve-entry scale rotated by `t` is entry `(t + k) mod 12` |
| Chromatic.RotateTwelve | refactoring.py:33 | the same for every entry at once |
| Chromatic.LongTableAt | refactoring.py:21-22 | the comprehension puts `scale[k] + octs[o]` at position `|scale| * o + k` (octave-major order) |
| Chromatic.LongTable | refactoring.py:21-22 | the comprehension has one entry per pair of pitch class and octave label |
| Chromatic.InOctave | refactoring.py:21-22 | one octave of the comprehension has one entry per pitch class; `LongTableAt` gives each entry |
| Chromatic.CanonicalDistinct | refactoring.py:8-9 | the twelve pitch-class names are distinct |
| Chromatic.FourOctavesAt | refactoring.py:8-11 | the table has 48 entries, with `Canonical[k] + Octaves[o]` at `12 * o + k`, C-first whatever the key |
| Chromatic.FourOctavesNoteAt | refactoring.py:21-22 | position `p` of the table holds pitch class `p mod 12` in octave `p / 12` |
| Chromatic.FourOctavesDistinct | refactoring.py:21-22 | no note occurs twice in the four-octave table |
| Chromatic.FourOctavesIndex | refactoring.py:51 | `.index` on the table finds `Canonical[k] + Octaves[o]` at `12 * o + k` |
| Chromatic.FirstCharIndex | refactoring.py:31-32 | only `key[0]` is looked up; an empty key fails with `EmptyKey`; success is exactly when `[key[0]]` is in the scale, at that position |
| Chromatic.SortedChromatic | refactoring.py:41-43 | `Ok` exactly when the key is present; the result has the same length, starts with the key, and is the scale read cyclically from the key's position; `ValueError` otherwise |
| Chromatic.Sliced | refactoring.py:51-53 | `Ok` exactly when the top note is present; the result is the prefix before the top note, its length is the top note's index, and it does not contain the top note |
| Chromatic.SlicedMembership | refactoring.py:51-53 | a note is in the slice exactly when it is in the table at an index smaller than the top note's index |
| Chromatic.SortedChromaticBack | refactoring.py:41-43 | in a scale without repetitions, rotating to any entry and then back to the first entry restores the scale |
| Chromatic.RotateRoundTrip | refactoring.py:41-43 | rotating the C-first scale to any pitch class and then back to C restores it |
| Harmony.KeyCheck | refactoring.py:56-58 | a key that builds successfully has 1 or 2 characters, and its first character names the pitch class at the returned rotation |
| Harmony.PatternFor | refactoring.py:73 | the chosen pattern has 7 offsets, starts at 0, and stays below 12 |
| Harmony.PatternIncreasing | refactoring.py:12-13 | both patterns climb strictly |
| Harmony.RotatedScale | refactoring.py:14 | the key's scale has 12 entries, starts on the key's pitch class, and entry `k` is `k` semitones above it |
| Harmony.RotatedScaleDistinct | refactoring.py:33 | every rotated scale still names each pitch class once |
| Harmony.RotatedScaleWrap | refactoring.py:152 | reading the rotated scale at a wrapped offset `a` gives the pitch class `a` semitones above the tonic |
| Harmony.ScaleFor | refactoring.py:14 | the scale after `_sort_chromatic_by(key)`: twelve distinct names starting on `[key[0]]` |
| Harmony.Diatonic | refactoring.py:100-105 | one chord per pattern entry; every root is in the scale and every quality is a key of the chord-tone table |
| Harmony.DiatonicAt | refactoring.py:102-103 | entry `i` is `[scale[pattern[i]], quality column row i]` |
| Harmony.DiatonicFor | refactoring.py:75 | `self.diatonic` of a valid key: seven chords, the first a major seventh on `[key[0]]` in major and minor keys alike; `DiatonicDegrees` gives every entry |
| Harmony.SeventhColumn | refactoring.py:66-67 | the quality column is M7, m7, m7, M7, 7, m7, m7b5 |
| Harmony.ChordToneShape | refactoring.py:68-69 | every quality starts on its root and climbs within an octave; triads have 3 tones and sevenths 4 |
| HarmonyLaws.KeyAccepted | refactoring.py:56-58 | a key is accepted exactly when it has 1-2 characters and starts with one of C D E F G A B; the error for each other case |
| HarmonyLaws.DiatonicDegrees | refactoring.py:92-105 | degree `i` of any key is `pattern[i]` semitones above the tonic, with the major-key quality of that degree, in minor keys too |
| HarmonyLaws.CScale | refactoring.py:31-33 | a key starting with C leaves the scale in C-first order |
| HarmonyLaws.DiatonicOfC | refactoring.py:95-96 | key C: C M7, D m7, E m7, F M7, G 7, A m7, B m7b5 |
| HarmonyLaws.MajorTableFromC | refactoring.py:100-105 | the major pattern over the C-first scale gives that table |
| HarmonyLaws.ResortedFromSixth | refactoring.py:83 | the table `_set_minor_attr` builds is the quality column read from the sixth degree: m7, m7b5, M7, m7, m7, M7, 7 |
| HarmonyLaws.DiatonicOfCMinor | refactoring.py:73 | key Cm: C D Eb F G Ab Bb, still with the major-key qualities |
| HarmonyLaws.MinorTableFromC | refactoring.py:100-105 | the minor pattern over the C-first scale gives that table |
| Voicing.Degree | refactoring.py:145 | `int(chord_root) - 1` is a valid degree index |
| Voicing.AlteredIndex | refactoring.py:145-150 | `root_idx` stays within one semitone of the degree's offset, and equals it when the suffix holds both or neither of `b` and `#`; `ParseAltered` gives the range -1..12 for real patterns |
| Voicing.ParseChordNum | refactoring.py:140-158 | `EmptyChordNum` exactly for an empty symbol; `BadDegree` outside 1-7; a bare degree gives one of the key's diatonic chords; a suffix gives a dominant seventh on a root of the scale, or `IndexError` |
| Voicing.Parse | refactoring.py:133-158 | `_parse_chord_num` on the engine for `key`: `EmptyChordNum` exactly for an empty symbol, and a parsed chord's root is in the key's scale and its quality in the chord-tone table; `ParseAltered`, `ParseFails` and `ParseBareDegree` give the rest |
| Voicing.HighestOctave | refactoring.py:171-174 | the chosen label puts the note below the top note, and no higher label does; with no choice, no label does |
| Voicing.Emit | refactoring.py:171-174 | the inner loop appends at most one note, nothing exactly when no label fits, and the note appended lies in the slice |
| Voicing.Placed | refactoring.py:170-175 | never more notes than tones, and every note lies in the slice below the top note |
| Voicing.ChordTones | refactoring.py:125-127 | one tone per offset of the quality |
| Voicing.VoiceWith | refactoring.py:122-131 | a successful voicing has at most 4 notes, all from the four-octave table |
| Voicing.Voice | refactoring.py:112-131 | `four_part_voicing` on the engine for `key`: at most four notes, all from the four-octave table; `VoiceSpelled`, `VoiceErrors` and `VoiceBelowTop` give the rest |
| VoicingLaws.ParseBareDegree | refactoring.py:155-156 | a bare degree names the key's diatonic chord of that degree |
| VoicingLaws.ParseSuffix | refactoring.py:144-153 | with a suffix, the root is read at the altered offset with Python indexing, the quality is `7`, and out of range gives `IndexError` |
| VoicingLaws.ParseAltered | refactoring.py:144-153 | the altered offset lies in -1..12; the parse succeeds exactly below 12, with the root that many semitones above the tonic (so -1 wraps); 12 gives `IndexError(12)` |
| VoicingLaws.ParseFails | refactoring.py:140-153 | with a valid key, parsing fails exactly on an empty symbol, a first character outside 1-7, or a major key's 7th degree with `#` and no `b` |
| VoicingLaws.PatternTop | refactoring.py:12-13 | only the major key's seventh degree sits 11 semitones up |
| VoicingLaws.HighestOctaveIs | refactoring.py:171-174 | the search stops at the highest fitting label |
| VoicingLaws.PlacedAppend | refactoring.py:170-175 | placing two runs of tones is placing each run, in order |
| VoicingLaws.PlacedSkips | refactoring.py:170-174 | a tone that fits in no octave is dropped and the others are unaffected |
| VoicingLaws.PlacedEvery | refactoring.py:170-175 | when every tone fits, the output has one note per tone, in input order, each in its highest fitting octave |
| VoicingLaws.PlacedNone | refactoring.py:170-174 | when no tone fits, the output is empty |
| VoicingLaws.InBelow | refactoring.py:51-53 | a table note is below the top note exactly when its position `12 * o + k` is smaller |
| VoicingLaws.PitchPlacement | refactoring.py:170-174 | a pitch class goes into the top note's octave if it lies below the top note's pitch class, else into the octave beneath, and is dropped when there is none |
| VoicingLaws.VoicedBelow | refactoring.py:160-175 | above the first octave, every tone is placed, as `Voiced` describes it musically |
| VoicingLaws.RotationRebase | refactoring.py:124 | rotating an already-rotated scale to entry `m` gives the scale that starts on `m` |
| VoicingLaws.RotatedPosition | refactoring.py:42 | in a rotated scale without repetitions, pitch class `m` is found at `(m - t) mod 12` |
| VoicingLaws.ChordScaleAt | refactoring.py:124 | whatever the key, rotating its scale to `Canonical[m]` gives the scale that starts on `m` |
| VoicingLaws.ChordTonesAbove | refactoring.py:124-127 | the chord tones are the quality's offsets counted up from the root, whatever the key |
| VoicingLaws.TonesFrom | refactoring.py:125-127 | reading offsets from a scale that starts on `m` spells them upward from `m` |
| VoicingLaws.ParsedQuality | refactoring.py:153-156 | a parsed quality is always a key of the chord-tone table, so the lookup at line 125 cannot fail |
| VoicingLaws.VoiceWithParsed | refactoring.py:122-131 | after a successful parse, the voicing is the chord's tones placed below the top note |
| VoicingLaws.SpelledChord | refactoring.py:124-127 | the tones read in any key are the quality's pitch classes counted up from the root |
| VoicingLaws.VoiceAsPlaced | refactoring.py:112-131 | once the symbol parses, the voicing is the placement of the quality's pitch classes counted from the root |
| VoicingLaws.VoiceSpelled | refactoring.py:112-131 | with a top note above the first octave, the voicing is every chord tone, in offset order, in the top note's octave or the one beneath |
| VoicingLaws.VoiceAtBottom | refactoring.py:167-175 | below C1 every tone is dropped, and the result is empty, not an error |
| VoicingLaws.PlacedBelowNothing | refactoring.py:170-174 | with an empty slice nothing is placed |
| VoicingLaws.VoiceWithErrors | refactoring.py:122-131 | over any engine's tables: the parse error is passed on; otherwise `ValueError` exactly when the top note is not in the table |
| VoicingLaws.VoiceErrors | refactoring.py:122-131 | the same for the engine built for a key |
| VoicingLaws.VoiceWithBelow | refactoring.py:167-175 | over any engine's tables, every voiced note lies in the table strictly below the top note |
| VoicingLaws.VoiceBelowTop | refactoring.py:167-175 | every voiced note lies in the table strictly below the top note |
| VoicingExamples.ParseOneInC | refactoring.py:155-156 | key C, `"1"` parses to C M7 |
| VoicingExamples.ParseFiveInC | refactoring.py:155-156 | key C, `"5"` parses to G 7 |
| VoicingExamples.DbKey | refactoring.py:32-33 | key Db: only `D` is looked up, so the scale starts on D at rotation 2, and the key is major |
| VoicingExamples.AlteredInC | refactoring.py:145-150 | the altered offsets of `"2b7"`, `"3b7"`, `"1b"`, `"2b#"` and `"7#"` in C, and of `"7#"` in Cm |
| VoicingExamples.ParseFlatTwoInC | refactoring.py:136-138 | key C, `"2b7"` parses to Db 7 |
| VoicingExamples.ParseFlatThreeInC | refactoring.py:144-153 | key C, `"3b7"` parses to Eb 7 |
| VoicingExamples.ParseWrapsInC | refactoring.py:147-152 | key C, `"1b"` wraps to B 7 |
| VoicingExamples.ParseCancelsInC | refactoring.py:147-150 | key C, `"2b#"`: the accidentals cancel, giving D 7 |
| VoicingExamples.ParseSharpSevenInC | refactoring.py:149-152 | key C, `"7#"` fails with `IndexError(12)` |
| VoicingExamples.ParseSharpSevenInCMinor | refactoring.py:149-152 | key Cm, `"7#"` gives B 7 |
| VoicingExamples.VoiceOneInC | refactoring.py:116-119 | key C, `"1"` below B4 gives C4 E4 G4 B3 |
| VoicingExamples.VoiceFlatTwoInC | refactoring.py:116-119 | key C, `"2b7"` below B4 gives Db4 F4 Ab4 B3 |
| VoicingExamples.VoiceFlatThreeBelowG | refactoring.py:112-131 | key C, `"3b7"` below G4 gives Eb4 G3 Bb3 Db4 |
| VoicingExamples.VoiceBelowLowestInC | refactoring.py:170-175 | key C, `"1"` below C1 gives the empty list |
| VoicingExamples.PlaceBelowG | refactoring.py:163-165 | placing C E G B below G4 gives C4 E4 G3 B3 |
| Engine.Voicer.Valid | refactoring.py:61-75 | no ensures of its own: the fields read after construction are the key's rotated scale, the C-first table, the key's pattern and the diatonic chords of those; `ValidState` gives its consequences |
| Engine.Voicer.constructor | refactoring.py:61-75 | builds the table from the C-first scale, rotates the scale to `key[0]`, picks the pattern and reads the diatonic chords, leaving a `Valid` engine for the key |
| Engine.Voicer.InitChromaticScale | refactoring.py:11-14 | from the C-first scale: the table becomes the four-octave table, and the scale becomes the canonical scale rotated to the key |
| Engine.Voicer.InitChord | refactoring.py:71-75 | the pattern for the key, the diatonic chords of the current scale with that pattern, and the rotated quality table for minor keys only |
| Engine.Voicer.SetModeAttr | refactoring.py:73 | the pattern for the key; for a minor key, the rotated quality table; for a major key, that field is left unchanged |
| Engine.Voicer.SortChromaticByKey | refactoring.py:24-33 | the result is the lookup of `key[0]`; on success, the scale field becomes the old scale rotated there; on failure, it is unchanged |
| Engine.Voicer.SortChromaticBy | refactoring.py:35-43 | returns `SortedChromatic` of the current scale and changes no field |
| Engine.Voicer.GetSlicedChromatic | refactoring.py:45-53 | returns `Sliced` of the four-octave field |
| Engine.Voicer.SetMinorAttr | refactoring.py:77-83 | sets the minor pattern and the quality table rotated by 5 |
| Engine.Voicer.SetMajorAttr | refactoring.py:85-90 | sets the major pattern |
| Engine.Voicer.GetDiatonic | refactoring.py:92-105 | the append loop returns `Diatonic` of the current scale and pattern |
| Engine.Voicer.ParseChordNumber | refactoring.py:133-158 | the step-by-step `root_idx` updates return `ParseChordNum` of the current tables |
| Engine.Voicer.SetOctave | refactoring.py:160-175 | `Ok` exactly when the top note is in the table, else `ValueError`; on success, the nested loop returns `Placed` of the tones below the top note |
| Engine.Voicer.FourPartVoicing | refactoring.py:112-131 | on a valid engine, returns exactly `Voice(key, chordNum, top)` |
| Engine.PlaceNote | refactoring.py:171-174 | the inner loop with `break` emits the tone in its highest fitting octave, or nothing |
| Engine.CollectTones | refactoring.py:125-127 | the append loop returns the scale read at the offsets, in order |
| Engine.Create | refactoring.py:62-64 | construction fails exactly when `KeyCheck` fails, with its error; otherwise a fresh `Valid` engine for the key |
| Engine.ValidState | refactoring.py:61-75 | the state `Valid` describes after construction: a key of 1-2 characters, twelve distinct scale names starting on `[key[0]]`, the 48-entry table starting at C1, and seven diatonic chords led by the major seventh on `[key[0]]` |

## Left out

- The `Play` class is left out: loading `.wav` samples, `mixer.init()`, `time.sleep` and the `os` paths are audio I/O. So are the demo script at the end of the file and the `print` in `add_chord`.
- The `type(key) == str` check in `assert_key` is left out, because Dafny's static types make it moot. The assertion messages are left out too, because they are text, not behaviour.
- The default arguments (`key='C'`, `top_note='B4'`) are not modelled as defaults. The examples pass `"C"` and `"B4"` explicitly.
- Engine.Voicer.constructor: requires a key that builds successfully. The raising constructor, with every failure case, is `Engine.Create`.
- Engine.Voicer.Valid: says nothing about `resortDiaChordForm`, because the source never reads that table after construction. Its content for minor keys is stated by `SetMinorAttr` and `SetModeAttr`, and by `HarmonyLaws.ResortedFromSixth`.
- The fields for the octave labels, the two patterns, the quality table and the chord-tone table are module constants here. The source never changes them after construction.
- The three Python classes are one Dafny class, `Engine.Voicer`, with the fields of all three. The inheritance chain only splits the constructor, and the constructor keeps that order.
- Python lists of pairs (`[root, quality]`) are modelled as the datatype `ChordName`. Tuples and lists are both sequences.
