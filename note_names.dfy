/**
 * Note naming: getNoteStr (a semitone position as a name with a `+`/`-` deviation
 * mark) and NoteRenderer.formatNote_ (the same name with an octave number).
 * Math.round(x) is floor(x + 0.5) over the reals.
 */
module NoteNames {

  /** The chromatic names, starting at A (semitone 6 is the lowest named note). */
  const ChromaticNames: seq<string> :=
    ["A", "A#", "B", "C", "C#", "D", "D#", "E", "F", "F#", "G", "G#"]

  /** Rounded semitones below this have no name. */
  const LowestNote: int := 6

  /** Deviation from the rounded semitone beyond which a `+` or `-` is appended. */
  const DeviationMark: real := 0.3

  /** Math.round: the nearest integer, halves rounded up. */
  function Round(x: real): (r: int)
    ensures r as real - 0.5 <= x < r as real + 0.5
  {
    (x + 0.5).Floor
  }

  /** The table index of a rounded semitone: its distance above A, modulo an octave. */
  function NameIndex(r: int): (k: nat)
    requires r >= LowestNote
    ensures k < 12
    ensures (r - LowestNote - k) % 12 == 0
  {
    (r - LowestNote) % 12
  }

  /** The table name of a rounded semitone: one letter A-G, optionally followed by `#`. */
  function BaseName(r: int): (name: string)
    requires r >= LowestNote
    ensures 1 <= |name| <= 2 && 'A' <= name[0] <= 'G'
    ensures |name| == 2 ==> name[1] == '#'
  {
    NamesAreWellFormed(NameIndex(r));
    ChromaticNames[NameIndex(r)]
  }

  /** The deviation mark of a note that lies `delta` above its rounded semitone. */
  function Suffix(delta: real): (s: string)
    ensures s == "+" <==> delta > DeviationMark
    ensures s == "-" <==> delta < -DeviationMark
    ensures s == "" <==> -DeviationMark <= delta <= DeviationMark
  {
    if delta > DeviationMark then "+"
    else if delta < -DeviationMark then "-"
    else ""
  }

  /** getNoteStr: "" below the lowest note, otherwise the name and its deviation mark. */
  function GetNoteStr(note: real): (s: string)
    ensures s == "" <==> Round(note) < LowestNote
  {
    var roundedNote := Round(note);
    if roundedNote < LowestNote then ""
    else
      NamesAreWellFormed(NameIndex(roundedNote));
      BaseName(roundedNote) + Suffix(note - roundedNote as real)
  }

  /** Every name is one letter, optionally followed by `#`. */
  lemma NamesAreWellFormed(k: nat)
    requires k < 12
    ensures 1 <= |ChromaticNames[k]| <= 2
    ensures 'A' <= ChromaticNames[k][0] <= 'G'
    ensures |ChromaticNames[k]| == 2 ==> ChromaticNames[k][1] == '#'
  {
  }

  /** Distinct table positions hold distinct names. */
  lemma NamesAreDistinct(i: nat, j: nat)
    requires i < 12 && j < 12
    requires ChromaticNames[i] == ChromaticNames[j]
    ensures i == j
  {
    NamesAreWellFormed(i);
    NamesAreWellFormed(j);
    assert ChromaticNames[i][0] == ChromaticNames[j][0];
    assert |ChromaticNames[i]| == |ChromaticNames[j]|;
  }

  /**
   * The last character of a named note is `+` exactly when the note lies more than
   * 0.3 above its rounded semitone, and `-` exactly when it lies more than 0.3 below.
   */
  lemma SuffixMarksDeviation(note: real)
    requires Round(note) >= LowestNote
    ensures var s := GetNoteStr(note);
      |s| > 0 &&
      (s[|s| - 1] == '+' <==> note - Round(note) as real > DeviationMark) &&
      (s[|s| - 1] == '-' <==> note - Round(note) as real < -DeviationMark)
  {
    var r := Round(note);
    var base := BaseName(r);
    NamesAreWellFormed(NameIndex(r));
    var delta := note - r as real;
    var s := GetNoteStr(note);
    assert s == base + Suffix(delta);
    if Suffix(delta) == "" {
      assert s == base;
      assert s[|s| - 1] == base[|base| - 1];
    } else {
      assert s[|s| - 1] == Suffix(delta)[0];
    }
  }

  /** Notes an octave apart get the same name and the same mark. */
  lemma {:induction false} NameRepeatsEveryOctave(note: real)
    requires Round(note) >= LowestNote
    ensures GetNoteStr(note + 12.0) == GetNoteStr(note)
  {
    var r := Round(note);
    assert Round(note + 12.0) == r + 12;
    assert NameIndex(r + 12) == NameIndex(r);
    assert (note + 12.0) - (r + 12) as real == note - r as real;
  }

  /**
   * A note name pins down the rounded semitone modulo an octave and the mark:
   * two notes with the same non-empty name are a whole number of octaves apart.
   */
  lemma SameNameSamePitchClass(a: real, b: real)
    requires GetNoteStr(a) == GetNoteStr(b) != ""
    ensures (Round(a) - Round(b)) % 12 == 0
    ensures Suffix(a - Round(a) as real) == Suffix(b - Round(b) as real)
  {
    var ra, rb := Round(a), Round(b);
    var na, nb := BaseName(ra), BaseName(rb);
    var sa, sb := Suffix(a - ra as real), Suffix(b - rb as real);
    NamesAreWellFormed(NameIndex(ra));
    NamesAreWellFormed(NameIndex(rb));
    var s := GetNoteStr(a);
    assert s == na + sa && s == nb + sb;
    // The marks are told apart by the last character; names never end in `+` or `-`.
    assert s[|s| - 1] == (if sa == "" then na[|na| - 1] else sa[0]);
    assert s[|s| - 1] == (if sb == "" then nb[|nb| - 1] else sb[0]);
    assert sa == sb;
    assert na == s[..|s| - |sa|] == nb;
    NamesAreDistinct(NameIndex(ra), NameIndex(rb));
  }

  /** The boundary cases of getNoteStr. */
  lemma NoteStrExamples()
    ensures GetNoteStr(5.0) == ""
    ensures GetNoteStr(6.0) == "A"
    ensures GetNoteStr(6.3) == "A"
    ensures GetNoteStr(6.31) == "A+"
    ensures GetNoteStr(6.35) == "A+"
    ensures GetNoteStr(5.6) == "A-"
    ensures GetNoteStr(5.7) == "A"
    ensures GetNoteStr(21.0) == "C"
  {
    assert Round(5.0) == 5;
    assert Round(6.0) == 6 && Round(6.3) == 6 && Round(6.31) == 6;
    assert Round(6.35) == 6 && Round(5.6) == 6 && Round(5.7) == 6;
    assert Round(21.0) == 21;
  }

  /** The result of formatNote_: "" below the lowest note, otherwise a name and an octave. */
  datatype FormattedNote = NoName | NameAndOctave(name: string, octave: int)

  /** A non-negative integer divided by 12 over the reals floors to integer division. */
  lemma FloorOfTwelfth(k: int)
    requires k >= 0
    ensures ((k as real) / 12.0).Floor == k / 12
  {
    var q, m := k / 12, k % 12;
    assert k == 12 * q + m;
    assert (k as real) / 12.0 == q as real + (m as real) / 12.0;
  }

  /** The octave number formatNote_ gives a rounded semitone: Math.round((r - 6 + 3) / 12) - 1. */
  function Octave(r: int): (oct: int)
    requires r >= LowestNote
    ensures oct == (r + 3) / 12 - 1
  {
    FloorOfTwelfth(r + 3);
    assert ((r - 6 + 3) as real / 12.0 + 0.5) == (r + 3) as real / 12.0;
    Round((r - 6 + 3) as real / 12.0) - 1
  }

  /** NoteRenderer.formatNote_. */
  function FormatNote(note: real): (f: FormattedNote)
    ensures f.NoName? <==> Round(note) < LowestNote
    ensures f.NameAndOctave? ==> f.octave == (Round(note) + 3) / 12 - 1
    ensures f.NameAndOctave? ==> GetNoteStr(note) == f.name + Suffix(note - Round(note) as real)
  {
    var roundedNote := Round(note);
    if roundedNote < LowestNote then NoName
    else NameAndOctave(BaseName(roundedNote), Octave(roundedNote))
  }

  /**
   * formatNote_ and getNoteStr agree: no name for the same notes, and otherwise
   * formatNote_'s name is getNoteStr with its deviation mark removed.
   */
  lemma FormatAgreesWithNoteStr(note: real)
    ensures FormatNote(note).NoName? <==> GetNoteStr(note) == ""
    ensures FormatNote(note).NameAndOctave? ==>
      var name, s := FormatNote(note).name, GetNoteStr(note);
      var mark := Suffix(note - Round(note) as real);
      |mark| <= 1 && s == name + mark && name == s[..|s| - |mark|]
  {
    if Round(note) >= LowestNote {
      var s, name := GetNoteStr(note), FormatNote(note).name;
      var mark := Suffix(note - Round(note) as real);
      assert s == name + mark;
      assert s[..|s| - |mark|] == name;
    }
  }

  /** One octave up, same name, octave number one higher. */
  lemma OctaveRisesEveryTwelve(r: int)
    requires r >= LowestNote
    ensures BaseName(r + 12) == BaseName(r)
    ensures Octave(r + 12) == Octave(r) + 1
  {
  }

  /** The octave number changes between B and C, and nowhere else. */
  lemma OctaveChangesAtC(r: int)
    requires r >= LowestNote
    ensures Octave(r + 1) == if BaseName(r + 1) == "C" then Octave(r) + 1 else Octave(r)
  {
    var k := NameIndex(r + 1);
    assert k == (r + 1 - LowestNote) % 12;
    assert (r + 4) % 12 == (k + 9) % 12;
    if BaseName(r + 1) == "C" {
      NamesAreDistinct(k, 3);
      assert (r + 4) % 12 == 0;
    } else {
      assert k != 3;
      assert (r + 4) % 12 != 0;
    }
  }

  /** The octave boundary next to the lowest notes, and concert A. */
  lemma FormatNoteExamples()
    ensures FormatNote(5.0) == NoName
    ensures FormatNote(6.0) == NameAndOctave("A", -1)
    ensures FormatNote(20.0) == NameAndOctave("B", 0)
    ensures FormatNote(21.0) == NameAndOctave("C", 1)
    ensures FormatNote(66.0) == NameAndOctave("A", 4)
  {
    assert Round(5.0) == 5 && Round(6.0) == 6;
    assert Round(20.0) == 20 && Round(21.0) == 21 && Round(66.0) == 66;
  }
}
