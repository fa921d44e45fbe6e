/** The note classes of the editor (composte/client/gui/UINote.py): one class per supported
    duration, each with its length in quarter notes, a dotted class deriving from its undotted
    parent, and the lookup from a music21 duration's type and dot count. */
module UINote {
  import opened Outcomes
  import ComposteMusicWrapper

  datatype NoteClass =
    | Whole | Half | HalfDotted | Quarter | QuarterDotted
    | Eighth | EighthDotted | Sixteenth | SixteenthDotted

  /** The `_length` each class declares. */
  function Length(c: NoteClass): real {
    match c
    case Whole => 4.0
    case Half => 2.0
    case HalfDotted => 3.0
    case Quarter => 1.0
    case QuarterDotted => 1.5
    case Eighth => 0.5
    case EighthDotted => 0.75
    case Sixteenth => 0.25
    case SixteenthDotted => 0.375
  }

  /** The base class a dotted class derives from. */
  function Parent(c: NoteClass): Option<NoteClass> {
    match c
    case HalfDotted => Some(Half)
    case QuarterDotted => Some(Quarter)
    case EighthDotted => Some(Eighth)
    case SixteenthDotted => Some(Sixteenth)
    case _ => None
  }

  /** `ntypeFromMusic21(note)`, on the note's duration type, dot count and printed form. */
  function NtypeFromMusic21(durationType: string, dots: int, durationStr: string): Result<NoteClass> {
    if durationType == "whole" && dots == 0 then Ok(Whole)
    else if durationType == "half" && dots == 0 then Ok(Half)
    else if durationType == "half" && dots == 1 then Ok(HalfDotted)
    else if durationType == "quarter" && dots == 0 then Ok(Quarter)
    else if durationType == "quarter" && dots == 1 then Ok(QuarterDotted)
    else if durationType == "eighth" && dots == 0 then Ok(Eighth)
    else if durationType == "eighth" && dots == 1 then Ok(EighthDotted)
    else if durationType == "16th" && dots == 0 then Ok(Sixteenth)
    else if durationType == "16th" && dots == 1 then Ok(SixteenthDotted)
    else Raise(RuntimeError("Unsupported note duration " + durationStr))
  }

  /** music21's length, in quarter notes, of an undotted duration type. */
  function TypeLength(durationType: string): Option<real> {
    if durationType == "whole" then Some(4.0)
    else if durationType == "half" then Some(2.0)
    else if durationType == "quarter" then Some(1.0)
    else if durationType == "eighth" then Some(0.5)
    else if durationType == "16th" then Some(0.25)
    else None
  }

  /** The lookup is defined on exactly the nine supported (type, dots) pairs, the class it
      picks lasts as long as the music21 duration (a dot adds half), and anything else
      raises RuntimeError naming the duration. */
  lemma NtypeMatchesDuration(durationType: string, dots: int, durationStr: string)
    ensures NtypeFromMusic21(durationType, dots, durationStr).Ok? <==>
      durationType in {"whole", "half", "quarter", "eighth", "16th"} &&
      (dots == 0 || (dots == 1 && durationType != "whole"))
    ensures NtypeFromMusic21(durationType, dots, durationStr).Ok? ==>
      TypeLength(durationType).Some? &&
      Length(NtypeFromMusic21(durationType, dots, durationStr).value) ==
        TypeLength(durationType).value * (if dots == 1 then 1.5 else 1.0)
    ensures NtypeFromMusic21(durationType, dots, durationStr).Raise? ==>
      NtypeFromMusic21(durationType, dots, durationStr).exc == RuntimeError("Unsupported note duration " + durationStr)
  {
  }

  /** A dotted class lasts half as long again as its parent; the undotted classes halve
      from whole to sixteenth. */
  lemma DottedLength(c: NoteClass)
    ensures Parent(c).Some? ==> Length(c) == 1.5 * Length(Parent(c).value)
    ensures Parent(c).None? <==> Length(c) in {4.0, 2.0, 1.0, 0.5, 0.25}
  {
  }

  /** The editor's note classes have the lengths the server accepts for an inserted note,
      no more and no fewer, and no two classes share a length. */
  lemma LengthsAreLegal()
    ensures forall c :: Length(c) in ComposteMusicWrapper.LegalLengths
    ensures forall l :: l in ComposteMusicWrapper.LegalLengths ==> exists c :: Length(c) == l
    ensures forall c, d :: Length(c) == Length(d) ==> c == d
  {
    var legal := ComposteMusicWrapper.LegalLengths;
    forall l | l in legal
      ensures exists c :: Length(c) == l
    {
      if l == 4.0 { assert Length(Whole) == l; }
      else if l == 3.0 { assert Length(HalfDotted) == l; }
      else if l == 2.0 { assert Length(Half) == l; }
      else if l == 1.5 { assert Length(QuarterDotted) == l; }
      else if l == 1.0 { assert Length(Quarter) == l; }
      else if l == 0.75 { assert Length(EighthDotted) == l; }
      else if l == 0.5 { assert Length(Eighth) == l; }
      else if l == 0.375 { assert Length(SixteenthDotted) == l; }
      else { assert Length(Sixteenth) == l; }
    }
  }

  /** `_yoffset`: the vertical offset of a note head whose clef puts it at `position` lines
      and spaces above the bottom of the staff, with `sep` the distance between two of them. */
  function YOffset(position: int, sep: real): (r: real)
    ensures position == 8 ==> r == 0.0
  {
    8.0 * sep - (position as real) * sep
  }

  /** One staff position higher is `sep` higher on the screen, so offsets of two positions
      differ by their distance times `sep`. */
  lemma YOffsetStep(position: int, other: int, sep: real)
    ensures YOffset(position, sep) - YOffset(other, sep) == ((other - position) as real) * sep
  {
  }
}
