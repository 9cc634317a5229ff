/**
 * The note renderer's decimation counter (NoteRenderer.draw_note): a note is counted only
 * when it is present and non-zero, and only every third counted note is drawn on the staff,
 * under the name and octave formatNote_ gives it.
 *
 * A note is `None` where the note handler receives null (an unconfident report).
 */
module NoteRendering {
  import opened Wrappers
  import opened NoteNames

  /** JavaScript truthiness of the note: null and 0 are falsy. */
  predicate Truthy(n: Option<real>)
  {
    n.Some? && n.value != 0.0
  }

  /** The truthy notes among `notes`, in order: the ones draw_note counts. */
  function TruthyValues(notes: seq<Option<real>>): (values: seq<real>)
    ensures |values| <= |notes|
  {
    if notes == [] then []
    else
      var last := notes[|notes| - 1];
      TruthyValues(notes[..|notes| - 1]) + if Truthy(last) then [last.value] else []
  }

  /** The notes that get past draw_note's guard: the truthy notes whose count reaches a multiple of 3. */
  function Decimated(notes: seq<Option<real>>): (drawn: seq<real>)
    ensures |drawn| <= |TruthyValues(notes)|
  {
    if notes == [] then []
    else
      var last := notes[|notes| - 1];
      var passes := Truthy(last) && |TruthyValues(notes)| % 3 == 0;
      Decimated(notes[..|notes| - 1]) + if passes then [last.value] else []
  }

  /** What the staff shows for each drawn note: its formatNote_ name and octave. */
  function Formatted(notes: seq<real>): (staff: seq<FormattedNote>)
    ensures |staff| == |notes|
    ensures forall i :: 0 <= i < |notes| ==> staff[i] == FormatNote(notes[i])
  {
    seq(|notes|, i requires 0 <= i < |notes| => FormatNote(notes[i]))
  }

  /** One note drawn for every three counted. */
  lemma {:induction false} DecimatedLength(notes: seq<Option<real>>)
    ensures |Decimated(notes)| == |TruthyValues(notes)| / 3
  {
    if notes != [] {
      var init := notes[..|notes| - 1];
      DecimatedLength(init);
      var c := |TruthyValues(init)|;
      if Truthy(notes[|notes| - 1]) {
        assert |TruthyValues(notes)| == c + 1;
        if (c + 1) % 3 == 0 {
          assert (c + 1) / 3 == c / 3 + 1;
        } else {
          assert (c + 1) / 3 == c / 3;
        }
      }
    }
  }

  /** The k-th drawn note is the (3k+3)-th counted note: the 3rd, the 6th, the 9th, ... */
  lemma {:induction false} DecimatedPicksEveryThird(notes: seq<Option<real>>)
    ensures forall k :: 0 <= k < |Decimated(notes)| ==>
      3 * k + 2 < |TruthyValues(notes)| && Decimated(notes)[k] == TruthyValues(notes)[3 * k + 2]
  {
    if notes != [] {
      var init, last := notes[..|notes| - 1], notes[|notes| - 1];
      DecimatedPicksEveryThird(init);
      DecimatedLength(init);
      DecimatedLength(notes);
      var d, t := Decimated(init), TruthyValues(init);
      if Truthy(last) && |TruthyValues(notes)| % 3 == 0 {
        assert Decimated(notes) == d + [last.value];
        assert TruthyValues(notes) == t + [last.value];
        assert 3 * |d| + 2 == |t|;
      } else {
        assert Decimated(notes) == d;
        assert TruthyValues(notes)[..|t|] == t;
      }
    }
  }

  /** Nine present notes give exactly three drawings: the 3rd, the 6th and the 9th. */
  lemma NineNotesThreeDrawings(notes: seq<Option<real>>)
    requires |notes| == 9 && forall i :: 0 <= i < 9 ==> notes[i].Some? && notes[i].value != 0.0
    ensures Decimated(notes) == [notes[2].value, notes[5].value, notes[8].value]
  {
    AllTruthy(notes);
    DecimatedLength(notes);
    DecimatedPicksEveryThird(notes);
  }

  /** When every note is truthy, every note is counted. */
  lemma {:induction false} AllTruthy(notes: seq<Option<real>>)
    requires forall i :: 0 <= i < |notes| ==> notes[i].Some? && notes[i].value != 0.0
    ensures |TruthyValues(notes)| == |notes|
    ensures forall i :: 0 <= i < |notes| ==> TruthyValues(notes)[i] == notes[i].value
  {
    if notes != [] {
      AllTruthy(notes[..|notes| - 1]);
    }
  }

  /** NoteRenderer, reduced to the state draw_note's guard reads and writes. */
  class NoteRenderer {
    var count: int
    /** The names and octaves handed to the staff, in order. */
    var staff: seq<FormattedNote>
    /** Every note handed to draw_note so far. */
    ghost var received: seq<Option<real>>

    ghost predicate Valid()
      reads this
    {
      count == |TruthyValues(received)| && staff == Formatted(Decimated(received))
    }

    constructor()
      ensures Valid() && received == [] && count == 0 && staff == []
    {
      count := 0;
      staff := [];
      received := [];
    }

    /**
     * draw_note: a falsy note returns at once without counting; a truthy one increments
     * the counter and is drawn when the new count is a multiple of 3.
     */
    method DrawNote(n: Option<real>) returns (proceeds: bool)
      requires Valid()
      modifies this
      ensures Valid() && received == old(received) + [n]
      ensures count == old(count) + (if Truthy(n) then 1 else 0)
      ensures proceeds <==> Truthy(n) && count % 3 == 0
      ensures staff == old(staff) + if proceeds then [FormatNote(n.value)] else []
    {
      ghost var notes := received + [n];
      assert notes[..|notes| - 1] == received;
      if !Truthy(n) {
        received := notes;
        return false;
      }
      count := count + 1;
      if count % 3 != 0 {
        received := notes;
        return false;
      }
      staff := staff + [FormatNote(n.value)];
      received := notes;
      proceeds := true;
    }
  }
}
