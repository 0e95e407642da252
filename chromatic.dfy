/**
 * The ChromaticScale layer: the twelve flat-spelled pitch classes, their
 * rotation so that a chosen note comes first, and the fixed four-octave
 * table that top notes are looked up in.
 */
module Chromatic {
  import opened Outcomes

  /** The twelve pitch classes in flat spelling, C first. */
  const Canonical: seq<string> := ["C", "Db", "D", "Eb", "E", "F", "Gb", "G", "Ab", "A", "Bb", "B"]

  /** The octave labels, lowest first. */
  const Octaves: seq<string> := ["1", "2", "3", "4"]

  /** No entry of `s` occurs twice. */
  predicate Distinct(s: seq<string>)
  {
    forall p, q :: 0 <= p < q < |s| ==> s[p] != s[q]
  }

  /** `list.index` / `tuple.index`: the first position of `x` in `s`, or ValueError. */
  function IndexOf(s: seq<string>, x: string): (r: Result<nat>)
    ensures r.Ok? <==> x in s
    ensures r.Ok? ==> r.value < |s| && s[r.value] == x && forall k :: 0 <= k < r.value ==> s[k] != x
    ensures r.Err? ==> r.error == NotInList(x)
  {
    IndexFrom(s, x, 0)
  }

  /** The search behind `IndexOf`, scanning from position `i` onwards. */
  function IndexFrom(s: seq<string>, x: string, i: nat): (r: Result<nat>)
    requires i <= |s|
    ensures r.Ok? <==> exists k :: i <= k < |s| && s[k] == x
    ensures r.Ok? ==> i <= r.value < |s| && s[r.value] == x && forall k :: i <= k < r.value ==> s[k] != x
    ensures r.Err? ==> r.error == NotInList(x)
    decreases |s| - i
  {
    if i == |s| then Err(NotInList(x))
    else if s[i] == x then Ok(i)
    else IndexFrom(s, x, i + 1)
  }

  /** In a sequence without repetitions, `index` finds every entry at its own position. */
  lemma IndexOfDistinct(s: seq<string>, k: nat)
    requires Distinct(s) && k < |s|
    ensures IndexOf(s, s[k]) == Ok(k)
  {
  }

  /**
   * Python's `s[i]` for an integer `i`: a negative index counts from the end,
   * so every index in `-|s| .. |s| - 1` reads the entry at `i` modulo `|s|`.
   */
  function PyIndex(s: seq<string>, i: int): (r: Result<string>)
    ensures r.Ok? <==> -|s| <= i < |s|
    ensures r.Ok? ==> r.value == s[i % |s|]
    ensures r.Err? ==> r.error == IndexOutOfRange(i)
  {
    if 0 <= i < |s| then Ok(s[i])
    else if -|s| <= i < 0 then Ok(s[|s| + i])
    else Err(IndexOutOfRange(i))
  }

  /** `s[i:] + s[:i]`: the rotation that brings position `i` to the front. */
  function Rotate<T>(s: seq<T>, i: nat): (r: seq<T>)
    requires i <= |s|
    ensures |r| == |s|
  {
    s[i..] + s[..i]
  }

  /** A rotation reorders the entries and neither adds nor loses any. */
  lemma RotatePermutes<T>(s: seq<T>, i: nat)
    requires i <= |s|
    ensures multiset(Rotate(s, i)) == multiset(s)
  {
    assert s == s[..i] + s[i..];
  }

  lemma ModSmall(x: int, n: int)
    requires 0 <= x < n
    ensures x % n == x
  {
  }

  lemma ModWrap(x: int, n: int)
    requires n <= x < 2 * n
    ensures x % n == x - n
  {
  }

  /** Entry `k` of a rotation by `i` is entry `i + k` of the original, counted cyclically. */
  lemma RotateAt<T>(s: seq<T>, i: nat)
    requires i <= |s|
    ensures forall k :: 0 <= k < |s| ==> Rotate(s, i)[k] == s[(i + k) % |s|]
  {
    forall k | 0 <= k < |s|
      ensures Rotate(s, i)[k] == s[(i + k) % |s|]
    {
      if i + k < |s| {
        ModSmall(i + k, |s|);
      } else {
        ModWrap(i + k, |s|);
      }
    }
  }

  /** For a twelve-entry sequence, counting modulo its length is counting modulo 12. */
  lemma ModTwelve(x: int, n: int)
    requires n == 12
    ensures x % n == x % 12
  {
  }

  /** Entry `k` of a twelve-entry scale rotated by `t` is entry `t + k` of the scale, counted modulo 12. */
  lemma RotatedEntry(c: seq<string>, t: nat, k: nat)
    requires |c| == 12 && t < 12 && k < 12
    ensures Rotate(c, t)[k] == c[(t + k) % 12]
  {
    RotateAt(c, t);
    ModTwelve(t + k, |c|);
  }

  /** `RotatedEntry` for every entry at once. */
  lemma RotateTwelve(c: seq<string>, t: nat)
    requires |c| == 12 && t < 12
    ensures forall k :: 0 <= k < 12 ==> Rotate(c, t)[k] == c[(t + k) % 12]
  {
    forall k | 0 <= k < 12
      ensures Rotate(c, t)[k] == c[(t + k) % 12]
    {
      RotatedEntry(c, t, k);
    }
  }

  /** Rotating by `i` and then by `|s| - i` restores the original order. */
  lemma RotateBack<T>(s: seq<T>, i: nat)
    requires i <= |s|
    ensures Rotate(Rotate(s, i), |s| - i) == s
  {
    var r := Rotate(s, i);
    assert r[|s| - i..] == s[..i];
    assert r[..|s| - i] == s[i..];
    assert s == s[..i] + s[i..];
  }

  /** A rotation of a sequence without repetitions has none either. */
  lemma RotateDistinct(s: seq<string>, i: nat)
    requires i <= |s| && Distinct(s)
    ensures Distinct(Rotate(s, i))
  {
    RotateAt(s, i);
    var n := |s|;
    forall p, q | 0 <= p < q < n
      ensures Rotate(s, i)[p] != Rotate(s, i)[q]
    {
      var a := if i + p < n then i + p else i + p - n;
      var b := if i + q < n then i + q else i + q - n;
      if i + p < n { ModSmall(i + p, n); } else { ModWrap(i + p, n); }
      if i + q < n { ModSmall(i + q, n); } else { ModWrap(i + q, n); }
      assert a != b;
    }
  }

  /** One octave of `scale`: every pitch class suffixed with the label `o`. */
  function InOctave(scale: seq<string>, o: string): (r: seq<string>)
    ensures |r| == |scale|
  {
    seq(|scale|, k requires 0 <= k < |scale| => scale[k] + o)
  }

  /**
   * `_get_long_chromatic`: the comprehension `i + j for j in octaves for i in scale`,
   * so all of the first octave comes first, then all of the second, and so on.
   */
  function LongTable(scale: seq<string>, octs: seq<string>): (r: seq<string>)
    ensures |r| == |scale| * |octs|
  {
    if octs == [] then []
    else InOctave(scale, octs[0]) + LongTable(scale, octs[1..])
  }

  /** The note `scale[k]` in octave `octs[o]` sits at position `|scale| * o + k`. */
  lemma {:induction false} LongTableAt(scale: seq<string>, octs: seq<string>, o: nat, k: nat)
    requires o < |octs| && k < |scale|
    ensures |scale| * o + k < |LongTable(scale, octs)|
    ensures LongTable(scale, octs)[|scale| * o + k] == scale[k] + octs[o]
  {
    if o > 0 {
      LongTableAt(scale, octs[1..], o - 1, k);
      assert |scale| * o == |scale| + |scale| * (o - 1);
    }
  }

  /**
   * The 48-entry table the engine slices below a top note. It is built from
   * the C-first scale before any rotation, so it does not depend on the key.
   */
  const FourOctaves: seq<string> := LongTable(Canonical, Octaves)

  lemma CanonicalDistinct()
    ensures Distinct(Canonical) && |Canonical| == 12
  {
  }

  /** Two notes with octave labels of equal length are equal only if name and label are. */
  lemma SplitNote(a: string, b: string, c: string, d: string)
    requires |b| == |d|
    ensures a + b == c + d ==> a == c && b == d
  {
    if a + b == c + d {
      assert a == (a + b)[..|a|];
      assert c == (c + d)[..|c|];
      assert b == (a + b)[|a|..];
      assert d == (c + d)[|c|..];
    }
  }

  /** Layout of the four-octave table: `Canonical[k] + Octaves[o]` is at `12 * o + k`. */
  lemma FourOctavesAt(o: nat, k: nat)
    requires o < 4 && k < 12
    ensures |FourOctaves| == 48 && FourOctaves[12 * o + k] == Canonical[k] + Octaves[o]
  {
    CanonicalDistinct();
    LongTableAt(Canonical, Octaves, o, k);
  }

  /** Every position `p` of the four-octave table holds pitch class `p % 12` in octave `p / 12`. */
  lemma FourOctavesNoteAt(p: nat)
    requires p < 48
    ensures |FourOctaves| == 48 && FourOctaves[p] == Canonical[p % 12] + Octaves[p / 12]
  {
    FourOctavesAt(p / 12, p % 12);
  }

  /** The octave labels are single characters, no two alike. */
  lemma OctaveLabels(o1: nat, o2: nat)
    requires o1 < 4 && o2 < 4
    ensures |Octaves[o1]| == |Octaves[o2]| == 1
    ensures Octaves[o1] == Octaves[o2] ==> o1 == o2
  {
  }

  /** No note occurs twice in the four-octave table. */
  lemma FourOctavesDistinct()
    ensures Distinct(FourOctaves)
  {
    CanonicalDistinct();
    forall p, q | 0 <= p < q < |FourOctaves|
      ensures FourOctaves[p] != FourOctaves[q]
    {
      FourOctavesNoteAt(p);
      FourOctavesNoteAt(q);
      var o1, k1, o2, k2 := p / 12, p % 12, q / 12, q % 12;
      assert p == 12 * o1 + k1 && q == 12 * o2 + k2;
      OctaveLabels(o1, o2);
      SplitNote(Canonical[k1], Octaves[o1], Canonical[k2], Octaves[o2]);
    }
  }

  /** `index` on the four-octave table: `Canonical[k] + Octaves[o]` is found at `12 * o + k`. */
  lemma FourOctavesIndex(o: nat, k: nat)
    requires o < 4 && k < 12
    ensures IndexOf(FourOctaves, Canonical[k] + Octaves[o]) == Ok(12 * o + k)
  {
    FourOctavesAt(o, k);
    FourOctavesDistinct();
    IndexOfDistinct(FourOctaves, 12 * o + k);
  }

  /**
   * The lookup in `_sort_chromatic_by`: only the key's first character is
   * searched for, and an empty key fails on `key[0]`.
   */
  function FirstCharIndex(scale: seq<string>, key: string): (r: Result<nat>)
    ensures r.Ok? <==> |key| > 0 && [key[0]] in scale
    ensures r.Ok? ==> r.value < |scale| && scale[r.value] == [key[0]]
    ensures |key| == 0 ==> r == Err(EmptyKey)
  {
    if |key| == 0 then Err(EmptyKey) else IndexOf(scale, [key[0]])
  }

  /**
   * `sort_chromatic_by`: a fresh rotation of `scale` that starts at `key`; the
   * scale itself is a value here, so it cannot change.
   */
  function SortedChromatic(scale: seq<string>, key: string): (r: Result<seq<string>>)
    ensures r.Ok? <==> key in scale
    ensures r.Err? ==> r.error == NotInList(key)
    ensures r.Ok? ==> |r.value| == |scale| && r.value[0] == key
    ensures r.Ok? ==> forall k :: 0 <= k < |scale| ==>
                        r.value[k] == scale[(IndexOf(scale, key).value + k) % |scale|]
  {
    match IndexOf(scale, key)
    case Err(e) => Err(e)
    case Ok(i) =>
      RotateAt(scale, i);
      Ok(Rotate(scale, i))
  }

  /**
   * `get_sliced_chromatic`: the entries of `long` strictly before `top`, or
   * ValueError when `top` is not in `long`.
   */
  function Sliced(long: seq<string>, top: string): (r: Result<seq<string>>)
    ensures r.Ok? <==> top in long
    ensures r.Err? ==> r.error == NotInList(top)
    ensures r.Ok? ==> |r.value| < |long| && long[|r.value|] == top
    ensures r.Ok? ==> r.value == long[..|r.value|] && top !in r.value
  {
    match IndexOf(long, top)
    case Err(e) => Err(e)
    case Ok(i) => Ok(long[..i])
  }

  /** A note is in the slice below `top` exactly when `index` puts it before `top`. */
  lemma SlicedMembership(long: seq<string>, top: string, x: string)
    requires top in long
    ensures x in Sliced(long, top).value <==> x in long && IndexOf(long, x).value < IndexOf(long, top).value
  {
    var t := IndexOf(long, top).value;
    if x in long[..t] {
      var j :| 0 <= j < t && long[..t][j] == x;
      assert long[j] == x;
    }
    if x in long {
      var i := IndexOf(long, x).value;
      assert long[i] == x;
    }
  }

  /**
   * In a scale without repetitions, rotating to any entry and then back to
   * the first entry restores the scale.
   */
  lemma SortedChromaticBack(s: seq<string>, t: string)
    requires Distinct(s) && t in s
    ensures SortedChromatic(s, t).Ok?
    ensures SortedChromatic(SortedChromatic(s, t).value, s[0]) == Ok(s)
  {
    var n := |s|;
    var i := IndexOf(s, t).value;
    var r := Rotate(s, i);
    assert SortedChromatic(s, t).value == r;
    var back := if i == 0 then 0 else n - i;
    assert r[back] == s[0] by {
      if i == 0 {
        assert r[0] == s[0];
      } else {
        assert r[n - i] == s[..i][0];
      }
    }
    RotateDistinct(s, i);
    IndexOfDistinct(r, back);
    if i == 0 {
      assert r == s;
      assert Rotate(r, 0) == r;
    } else {
      RotateBack(s, i);
    }
  }

  /** Rotating to a pitch class and then back to C restores the C-first order. */
  lemma RotateRoundTrip(t: string)
    requires t in Canonical
    ensures SortedChromatic(Canonical, t).Ok?
    ensures SortedChromatic(SortedChromatic(Canonical, t).value, "C") == Ok(Canonical)
  {
    CanonicalDistinct();
    SortedChromaticBack(Canonical, t);
  }
}
