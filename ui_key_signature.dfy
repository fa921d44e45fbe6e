/** The accidental decision of the editor's key signature item, as both
    composte/client/gui/UIKeySignature.py and client/gui/UIKeySignature.py write it, and the
    key signatures the editor knows. A key signature lists the steps it sharpens or the
    steps it flattens; a note is drawn with the mark it needs beyond the key. */
module UIKeySignature {
  import opened Outcomes

  datatype KeySig = KeySig(name: string, sharps: seq<string>, flats: seq<string>)

  /** The mark drawn beside a note head. */
  datatype Mark = Natural | Sharp | Flat

  /** The condition as Python parses it: `(accidental is None and step in sharps) or step in
      flats`. Any pitch whose step the key flattens is marked natural, which leaves the
      `flat and step in flats` branch unreachable. */
  function AccidentalMarkOfAsWritten(k: KeySig, step: string, accidental: Option<string>): Result<Option<Mark>> {
    if (accidental.None? && step in k.sharps) || step in k.flats then Ok(Some(Natural))
    else if accidental.None? then Ok(None)
    else if accidental.value == "sharp" && step in k.sharps then Ok(None)
    else if accidental.value == "sharp" then Ok(Some(Sharp))
    else if accidental.value == "flat" && step in k.flats then Ok(None)
    else if accidental.value == "flat" then Ok(Some(Flat))
    else Raise(RuntimeError("Unsupported accidental '" + accidental.value + "'"))
  }

  /** The decision with the intended grouping, `accidental is None and (step in sharps or
      step in flats)`: a natural note needs a natural sign where the key alters its step,
      and a sharp or flat needs no sign where the key already gives it. */
  function AccidentalMarkOf(k: KeySig, step: string, accidental: Option<string>): Result<Option<Mark>> {
    if accidental.None? && (step in k.sharps || step in k.flats) then Ok(Some(Natural))
    else if accidental.None? then Ok(None)
    else if accidental.value == "sharp" && step in k.sharps then Ok(None)
    else if accidental.value == "sharp" then Ok(Some(Sharp))
    else if accidental.value == "flat" && step in k.flats then Ok(None)
    else if accidental.value == "flat" then Ok(Some(Flat))
    else Raise(RuntimeError("Unsupported accidental '" + accidental.value + "'"))
  }

  /** The alteration the key itself gives a step. */
  function Implied(k: KeySig, step: string): Mark {
    if step in k.sharps then Sharp else if step in k.flats then Flat else Natural
  }

  /** The alteration the note is written with. */
  function Written(accidental: Option<string>): Mark
    requires accidental.None? || accidental.value in {"sharp", "flat"}
  {
    if accidental.None? then Natural else if accidental.value == "sharp" then Sharp else Flat
  }

  /** The reference rule: a mark is drawn exactly when the written alteration differs from
      the key's, and it is the written one. */
  function MarkNeeded(implied: Mark, written: Mark): Option<Mark> {
    if implied == written then None else Some(written)
  }

  /** One of the two lists is empty, as the constructor's documentation asks. */
  predicate OneSided(k: KeySig) {
    k.sharps == [] || k.flats == []
  }

  /** The corrected decision is the reference rule for natural, sharp and flat notes, and any
      other accidental raises RuntimeError. */
  lemma AccidentalMarkIsNeeded(k: KeySig, step: string, accidental: Option<string>)
    requires OneSided(k)
    ensures accidental.None? || accidental.value in {"sharp", "flat"} ==>
      AccidentalMarkOf(k, step, accidental) == Ok(MarkNeeded(Implied(k, step), Written(accidental)))
    ensures accidental.Some? && accidental.value !in {"sharp", "flat"} ==>
      AccidentalMarkOf(k, step, accidental) == Raise(RuntimeError("Unsupported accidental '" + accidental.value + "'"))
  {
  }

  /** As written, every note on a step the key flattens is marked natural: a B flat in F
      major, which the key already gives, is drawn with a natural sign; the corrected rule
      draws nothing. */
  lemma AsWrittenMarksFlatsNatural(k: KeySig, step: string, accidental: Option<string>)
    requires step in k.flats
    ensures AccidentalMarkOfAsWritten(k, step, accidental) == Ok(Some(Natural))
    ensures AccidentalMarkOfAsWritten(Key(F), "B", Some("flat")) == Ok(Some(Natural))
    ensures AccidentalMarkOf(Key(F), "B", Some("flat")) == Ok(None)
    ensures MarkNeeded(Implied(Key(F), "B"), Written(Some("flat"))) == None
  {
  }

  /** As written, a flat note is never left unmarked: the branch for a flat the key already
      gives cannot be reached. */
  lemma AsWrittenFlatAlwaysMarked(k: KeySig, step: string)
    ensures AccidentalMarkOfAsWritten(k, step, Some("flat")).Ok?
    ensures AccidentalMarkOfAsWritten(k, step, Some("flat")).value ==
      Some(if step in k.flats then Natural else Flat)
  {
  }

  /** The two decisions differ only on altered notes of a flattened step: elsewhere they
      agree. */
  lemma AsWrittenAgreesElsewhere(k: KeySig, step: string, accidental: Option<string>)
    requires step !in k.flats || accidental.None?
    ensures AccidentalMarkOfAsWritten(k, step, accidental) == AccidentalMarkOf(k, step, accidental)
  {
  }

  // ---------------------------------------------------------------------------
  // The key signatures
  // ---------------------------------------------------------------------------

  /** The order in which sharps and flats enter a key signature. */
  const SharpOrder: seq<string> := ["F", "C", "G", "D", "A"]
  const FlatOrder: seq<string> := ["B", "E", "A", "D", "G"]

  datatype KeyName = C | G | D | A | E | B | F | Bb | Eb | Ab | Db

  /** `C()` … `Db()`. */
  function Key(n: KeyName): KeySig {
    match n
    case C => KeySig("C", [], [])
    case G => KeySig("G", ["F"], [])
    case D => KeySig("D", ["F", "C"], [])
    case A => KeySig("A", ["F", "C", "G"], [])
    case E => KeySig("E", ["F", "C", "G", "D"], [])
    case B => KeySig("B", ["F", "C", "G", "D", "A"], [])
    case F => KeySig("F", [], ["B"])
    case Bb => KeySig("Bb", [], ["B", "E"])
    case Eb => KeySig("Eb", [], ["B", "E", "A"])
    case Ab => KeySig("Ab", [], ["B", "E", "A", "D"])
    case Db => KeySig("Db", [], ["B", "E", "A", "D", "G"])
  }

  /** How many sharps (positive) or flats (negative) a key has. */
  function Accidentals(n: KeyName): int {
    match n
    case C => 0 case G => 1 case D => 2 case A => 3 case E => 4 case B => 5
    case F => -1 case Bb => -2 case Eb => -3 case Ab => -4 case Db => -5
  }

  /** Each key uses the first sharps of the order of sharps, or the first flats of the order
      of flats, and never both. */
  lemma KeyTables(n: KeyName)
    ensures OneSided(Key(n))
    ensures Accidentals(n) >= 0 ==> Key(n).sharps == SharpOrder[..Accidentals(n)] && Key(n).flats == []
    ensures Accidentals(n) < 0 ==> Key(n).flats == FlatOrder[..-Accidentals(n)] && Key(n).sharps == []
  {
  }

  /** `fromMusic21(ks)`: only C and G are supported. For any other key the source builds its
      error message as `'Unsupported key signature ' + ks`, adding a string to a
      KeySignature object, so it raises TypeError rather than the RuntimeError it
      documents. */
  function FromMusic21(sharps: int): (r: Result<KeySig>)
    ensures r.Ok? <==> sharps in {0, 1}
    ensures r.Ok? ==> exists n :: r.value == Key(n) && Accidentals(n) == sharps
    ensures r.Raise? ==> r.exc == TypeError
  {
    if sharps == 0 then
      assert Accidentals(C) == 0;
      Ok(Key(C))
    else if sharps == 1 then
      assert Accidentals(G) == 1;
      Ok(Key(G))
    else Raise(TypeError)
  }

  /** `__str__`. */
  function Str(k: KeySig): (r: string)
    ensures |r| == |k.name| + 16 && r[15..|r| - 1] == k.name
    ensures r[..15] == "UIKeySignature<" && r[|r| - 1] == '>'
  {
    "UIKeySignature<" + k.name + ">"
  }
}
