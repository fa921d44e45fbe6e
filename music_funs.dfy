/** The editing operations of util/musicFuns.py over a stream: key-signature changes with
    the renaming of the notes they govern, note insertion and removal (with the tie
    bookkeeping of module Ties), and the upsert/remove helpers for clefs, instruments and
    dynamics. Each operation returns the new stream instead of changing its argument. */
module MusicFuns {
  import opened Outcomes
  import opened PyCore
  import opened Music
  import opened Ties

  function Min(a: real, b: real): real { if a <= b then a else b }
  function Max(a: real, b: real): real { if a >= b then a else b }

  // ---------------------------------------------------------------------------
  // renameNote / renameNotes / changeKeySignature
  // ---------------------------------------------------------------------------

  /** The seven letter names in order. */
  const Letters: string := "ABCDEFG"

  /** `chr(ord(c) - 1)` on a letter name, with 'A' wrapping to 'G'. */
  function LetterBelow(c: char): char {
    if c == 'A' then 'G' else if 'B' <= c <= 'G' then (c as int - 1) as char else c
  }

  /** `chr(ord(c) + 1)` on a letter name, with 'G' wrapping to 'A'. */
  function LetterAbove(c: char): char {
    if c == 'G' then 'A' else if 'A' <= c <= 'F' then (c as int + 1) as char else c
  }

  /** The new name: in a key with sharps a flat name "X-..." becomes the letter below with a
      sharp, otherwise a sharp name "X#..." becomes the letter above with a flat; a name
      whose second character is not that accidental is kept. None for a one-letter name,
      whose `name[1]` raises IndexError. */
  function RespellAsWritten(name: string, hasSharps: bool): Option<string> {
    if |name| < 2 then None
    else if hasSharps then Some(if name[1] == '-' then [LetterBelow(name[0]), '#'] else name)
    else Some(if name[1] == '#' then [LetterAbove(name[0]), '-'] else name)
  }

  /** `renameNote(note, hasSharps)` as written: a natural note raises IndexError. */
  function RenameNoteAsWritten(n: NoteData, hasSharps: bool): Result<NoteData> {
    match RespellAsWritten(n.pitch.name, hasSharps)
    case None => Raise(IndexError)
    case Some(newName) => Ok(FreshNote(Pitch(newName, n.pitch.octave), n.duration))
  }

  /** The respelling as intended: a natural name has no accidental to respell and is kept. */
  function Respell(name: string, hasSharps: bool): string {
    if |name| < 2 then name else RespellAsWritten(name, hasSharps).value
  }

  /** `renameNote(note, hasSharps)` as intended: a new note (untied, unlinked, without lyrics)
      with the respelled name, the same octave and the same duration. */
  function RenameNote(n: NoteData, hasSharps: bool): (r: NoteData)
    ensures r.pitch.octave == n.pitch.octave && r.duration == n.duration
    ensures r.tie.None? && r.partners == TiePartners(None, None) && r.lyrics == []
  {
    FreshNote(Pitch(Respell(n.pitch.name, hasSharps), n.pitch.octave), n.duration)
  }

  /** On the letter names the two steps move one place down and up the cycle A..G, so
      each undoes the other. */
  lemma LetterSteps()
    ensures forall i :: 0 <= i < 7 ==> LetterBelow(Letters[i]) == Letters[if i == 0 then 6 else i - 1]
    ensures forall i :: 0 <= i < 7 ==> LetterAbove(Letters[i]) == Letters[if i == 6 then 0 else i + 1]
    ensures forall c :: c in Letters ==> LetterAbove(LetterBelow(c)) == c && LetterBelow(LetterAbove(c)) == c
  {
    forall i | 0 <= i < 7
      ensures LetterBelow(Letters[i]) == Letters[if i == 0 then 6 else i - 1] && LetterAbove(Letters[i]) == Letters[if i == 6 then 0 else i + 1]
    {
      assert i == 0 || i == 1 || i == 2 || i == 3 || i == 4 || i == 5 || i == 6;
    }
    forall c | c in Letters
      ensures LetterAbove(LetterBelow(c)) == c && LetterBelow(LetterAbove(c)) == c
    {
      assert c == 'A' || c == 'B' || c == 'C' || c == 'D' || c == 'E' || c == 'F' || c == 'G';
    }
  }

  /** Respelling a flat in a key with sharps and then back in a key with flats restores the
      name, and the other way round: "E-" becomes "D#" and "D#" becomes "E-". */
  lemma RespellRoundTrip(letter: char)
    requires letter in Letters
    ensures Respell(Respell([letter, '-'], true), false) == [letter, '-']
    ensures Respell(Respell([letter, '#'], false), true) == [letter, '#']
    ensures Respell([letter], true) == [letter] && Respell([letter], false) == [letter]
  {
    LetterSteps();
  }

  /** The written renameNote agrees with the intended one on every accidental name and
      raises IndexError on exactly the one-letter names. */
  lemma RenameNoteTypo(n: NoteData, hasSharps: bool)
    ensures |n.pitch.name| >= 2 ==> RenameNoteAsWritten(n, hasSharps) == Ok(RenameNote(n, hasSharps))
    ensures |n.pitch.name| < 2 ==> RenameNoteAsWritten(n, hasSharps) == Raise(IndexError)
  {
  }

  /** Whether `renameNotes(start, part, key, end)` renames an element. */
  predicate InRenameRange(e: Element, start: real, end: Option<real>) {
    e.kind.Note? && start <= e.offset && (end.None? || e.offset <= end.value)
  }

  function RenamedElement(e: Element, start: real, end: Option<real>, hasSharps: bool): Element {
    if InRenameRange(e, start, end) then Element(e.offset, Note(RenameNote(e.kind.note, hasSharps))) else e
  }

  /** `renameNotes(startOffset, part, keySig, endOffset)`: every note from startOffset on, up
      to and including endOffset when one is given, is replaced by its renamed note; every
      other element stays. `hasSharps` is `0 < keySig.sharps`. */
  method RenameNotes(s: Stream, start: real, end: Option<real>, hasSharps: bool) returns (r: Stream)
    ensures |r| == |s|
    ensures forall i :: 0 <= i < |s| ==> r[i] == RenamedElement(s[i], start, end, hasSharps)
  {
    r := s;
    var i := 0;
    while i < |s|
      invariant 0 <= i <= |s| && |r| == |s|
      invariant forall j :: 0 <= j < i ==> r[j] == RenamedElement(s[j], start, end, hasSharps)
      invariant forall j :: i <= j < |s| ==> r[j] == s[j]
    {
      if InRenameRange(s[i], start, end) {
        r := r[i := Element(s[i].offset, Note(RenameNote(s[i].kind.note, hasSharps)))];
      }
      i := i + 1;
    }
  }

  /** Renaming the whole stream: the function the method above computes. */
  function RenameAll(s: Stream, start: real, end: Option<real>, hasSharps: bool): (r: Stream)
    ensures |r| == |s|
    ensures forall i :: 0 <= i < |s| ==> r[i] == RenamedElement(s[i], start, end, hasSharps)
  {
    seq(|s|, i requires 0 <= i < |s| => RenamedElement(s[i], start, end, hasSharps))
  }

  /** `changeKeySignature(offset, part, sharps)`: a key signature already at the offset is
      replaced, and the notes are renamed up to the next key signature (inclusive) or to the
      end; otherwise the new key signature is inserted and the notes are renamed up to the
      first later key signature or to the end. */
  function ChangeKeySignatureSpec(s: Stream, offset: real, sharps: int): Stream {
    var ks := Element(offset, KeySignature(sharps));
    match FirstMatch(s, TagAt(offset, KeySignatureTag), 0)
    case Some(k) =>
      var next := FirstMatch(s, AnyTag(KeySignatureTag), k + 1);
      RenameAll(s[k := ks], offset, if next.Some? then Some(s[next.value].offset) else None, 0 < sharps)
    case None =>
      var later := FirstMatch(s, LaterTag(offset, KeySignatureTag), 0);
      RenameAll(Insert(s, ks), offset, if later.Some? then Some(s[later.value].offset) else None, 0 < sharps)
  }

  method ChangeKeySignature(s: Stream, offset: real, sharps: int) returns (r: Stream)
    ensures r == ChangeKeySignatureSpec(s, offset, sharps)
  {
    var ks := Element(offset, KeySignature(sharps));
    var k := FindFirst(s, TagAt(offset, KeySignatureTag), 0);
    if k.Some? {
      var next := FindFirst(s, AnyTag(KeySignatureTag), k.value + 1);
      r := RenameNotes(s[k.value := ks], offset, if next.Some? then Some(s[next.value].offset) else None, 0 < sharps);
    } else {
      var later := FindFirst(s, LaterTag(offset, KeySignatureTag), 0);
      r := RenameNotes(Insert(s, ks), offset, if later.Some? then Some(s[later.value].offset) else None, 0 < sharps);
    }
  }

  /** `renameNotes` with the written renameNote: the notes are renamed in order, and the
      first note in range with a natural (one-letter) name raises IndexError. */
  function RenameAllAsWritten(s: Stream, start: real, end: Option<real>, hasSharps: bool): Result<Stream> {
    if s == [] then Ok([])
    else if InRenameRange(s[0], start, end) && |s[0].kind.note.pitch.name| < 2 then Raise(IndexError)
    else
      var rest :- RenameAllAsWritten(s[1..], start, end, hasSharps);
      Ok([RenamedElement(s[0], start, end, hasSharps)] + rest)
  }

  /** A note that renameNotes reaches and whose name has no accidental. */
  predicate NaturalInRange(s: Stream, start: real, end: Option<real>) {
    exists i :: 0 <= i < |s| && InRenameRange(s[i], start, end) && |s[i].kind.note.pitch.name| < 2
  }

  /** The written renameNotes raises IndexError exactly when a natural note is in range,
      and otherwise renames as the intended one does. */
  lemma {:induction false} RenameAllTypo(s: Stream, start: real, end: Option<real>, hasSharps: bool)
    ensures RenameAllAsWritten(s, start, end, hasSharps) ==
      if NaturalInRange(s, start, end) then Raise(IndexError) else Ok(RenameAll(s, start, end, hasSharps))
  {
    if s != [] {
      RenameAllTypo(s[1..], start, end, hasSharps);
      NaturalInRangeCons(s, start, end);
      RenameAllCons(s, start, end, hasSharps);
    }
  }

  lemma NaturalInRangeCons(s: Stream, start: real, end: Option<real>)
    requires s != []
    ensures NaturalInRange(s, start, end) <==>
      (InRenameRange(s[0], start, end) && |s[0].kind.note.pitch.name| < 2) || NaturalInRange(s[1..], start, end)
  {
    if NaturalInRange(s[1..], start, end) {
      var i :| 0 <= i < |s[1..]| && InRenameRange(s[1..][i], start, end) && |s[1..][i].kind.note.pitch.name| < 2;
      assert s[i + 1] == s[1..][i];
    }
    if NaturalInRange(s, start, end) {
      var i :| 0 <= i < |s| && InRenameRange(s[i], start, end) && |s[i].kind.note.pitch.name| < 2;
      if i > 0 {
        assert s[1..][i - 1] == s[i];
      }
    }
  }

  lemma RenameAllCons(s: Stream, start: real, end: Option<real>, hasSharps: bool)
    requires s != []
    ensures RenameAll(s, start, end, hasSharps) == [RenamedElement(s[0], start, end, hasSharps)] + RenameAll(s[1..], start, end, hasSharps)
  {
  }

  /** `changeKeySignature` as written: the key signature is placed as in the intended
      version, and the renaming then raises IndexError at the first natural note in range. */
  function ChangeKeySignatureAsWritten(s: Stream, offset: real, sharps: int): Result<Stream> {
    var ks := Element(offset, KeySignature(sharps));
    match FirstMatch(s, TagAt(offset, KeySignatureTag), 0)
    case Some(k) =>
      var next := FirstMatch(s, AnyTag(KeySignatureTag), k + 1);
      RenameAllAsWritten(s[k := ks], offset, if next.Some? then Some(s[next.value].offset) else None, 0 < sharps)
    case None =>
      var later := FirstMatch(s, LaterTag(offset, KeySignatureTag), 0);
      RenameAllAsWritten(Insert(s, ks), offset, if later.Some? then Some(s[later.value].offset) else None, 0 < sharps)
  }

  /** The written key change agrees with the intended one whenever it succeeds. */
  lemma ChangeKeySignatureTypo(s: Stream, offset: real, sharps: int)
    ensures ChangeKeySignatureAsWritten(s, offset, sharps).Ok? ==>
      ChangeKeySignatureAsWritten(s, offset, sharps).value == ChangeKeySignatureSpec(s, offset, sharps)
  {
    var ks := Element(offset, KeySignature(sharps));
    match FirstMatch(s, TagAt(offset, KeySignatureTag), 0) {
      case Some(k) =>
        var next := FirstMatch(s, AnyTag(KeySignatureTag), k + 1);
        RenameAllTypo(s[k := ks], offset, if next.Some? then Some(s[next.value].offset) else None, 0 < sharps);
      case None =>
        var later := FirstMatch(s, LaterTag(offset, KeySignatureTag), 0);
        RenameAllTypo(Insert(s, ks), offset, if later.Some? then Some(s[later.value].offset) else None, 0 < sharps);
    }
  }

  /** A key change on a stream holding only a C at the offset raises IndexError as
      written, where the intended version inserts the key and keeps the C. */
  lemma ChangeKeyOnNaturalRaises(offset: real, sharps: int)
    ensures var c := Element(offset, Note(FreshNote(Pitch("C", 4), 1.0)));
      ChangeKeySignatureAsWritten([c], offset, sharps) == Raise(IndexError) &&
      c in ChangeKeySignatureSpec([c], offset, sharps)
  {
    var ks := Element(offset, KeySignature(sharps));
    var c := Element(offset, Note(FreshNote(Pitch("C", 4), 1.0)));
    var t := Insert([c], ks);
    assert FirstMatch([c], TagAt(offset, KeySignatureTag), 0) == None;
    assert FirstMatch([c], LaterTag(offset, KeySignatureTag), 0) == None;
    assert c in t by { InsertFacts([c], ks); }
    var i :| 0 <= i < |t| && t[i] == c;
    assert RenamedElement(t[i], offset, None, 0 < sharps) == c;
    RenameAllTypo(t, offset, None, 0 < sharps);
  }

  /** The number of key signatures in a stream. */
  function KeySignatureCount(s: Stream): nat {
    if s == [] then 0 else (if s[0].kind.KeySignature? then 1 else 0) + KeySignatureCount(s[1..])
  }

  lemma {:induction false} KeySignatureCountAppend(a: Stream, b: Stream)
    ensures KeySignatureCount(a + b) == KeySignatureCount(a) + KeySignatureCount(b)
  {
    if a == [] {
      assert a + b == b;
    } else {
      assert (a + b)[1..] == a[1..] + b;
      KeySignatureCountAppend(a[1..], b);
    }
  }

  lemma {:induction false} KeySignatureCountSame(s: Stream, t: Stream)
    requires |s| == |t|
    requires forall i :: 0 <= i < |s| ==> (s[i].kind.KeySignature? <==> t[i].kind.KeySignature?)
    ensures KeySignatureCount(s) == KeySignatureCount(t)
  {
    if s != [] {
      KeySignatureCountSame(s[1..], t[1..]);
    }
  }

  /** After a key change the stream is still sorted, holds a key signature with the new
      sharps at the offset, and holds as many key signatures as before when one was already
      at the offset and one more otherwise. */
  lemma ChangeKeySignatureFacts(s: Stream, offset: real, sharps: int)
    requires Sorted(s)
    ensures var r := ChangeKeySignatureSpec(s, offset, sharps);
      Sorted(r) &&
      Element(offset, KeySignature(sharps)) in r &&
      KeySignatureCount(r) == KeySignatureCount(s) +
        (if FirstMatch(s, TagAt(offset, KeySignatureTag), 0).Some? then 0 else 1)
  {
    var ks := Element(offset, KeySignature(sharps));
    var found := FirstMatch(s, TagAt(offset, KeySignatureTag), 0);
    if found.Some? {
      var k := found.value;
      assert Matches(s[k], TagAt(offset, KeySignatureTag));
      var next := FirstMatch(s, AnyTag(KeySignatureTag), k + 1);
      var end := if next.Some? then Some(s[next.value].offset) else None;
      assert ChangeKeySignatureSpec(s, offset, sharps) == RenameAll(s[k := ks], offset, end, 0 < sharps);
      KeyReplaceFacts(s, k, ks, offset, end, 0 < sharps);
    } else {
      var later := FirstMatch(s, LaterTag(offset, KeySignatureTag), 0);
      var end := if later.Some? then Some(s[later.value].offset) else None;
      assert ChangeKeySignatureSpec(s, offset, sharps) == RenameAll(Insert(s, ks), offset, end, 0 < sharps);
      KeyInsertFacts(s, ks, offset, end, 0 < sharps);
    }
  }

  lemma KeyReplaceFacts(s: Stream, k: nat, ks: Element, offset: real, end: Option<real>, hasSharps: bool)
    requires Sorted(s) && k < |s| && s[k].kind.KeySignature? && s[k].offset == offset
    requires ks.offset == offset && ks.kind.KeySignature?
    ensures var r := RenameAll(s[k := ks], offset, end, hasSharps);
      Sorted(r) && ks in r && KeySignatureCount(r) == KeySignatureCount(s)
  {
    var t := s[k := ks];
    ReplaceSameOffsetSorted(s, k, ks);
    var r := RenameAll(t, offset, end, hasSharps);
    RenameKeepsShape(t, offset, end, hasSharps);
    assert r[k] == ks;
    KeySignatureCountSame(s, t);
    KeySignatureCountSame(t, r);
  }

  lemma KeyInsertFacts(s: Stream, ks: Element, offset: real, end: Option<real>, hasSharps: bool)
    requires Sorted(s) && ks.offset == offset && ks.kind.KeySignature?
    ensures var r := RenameAll(Insert(s, ks), offset, end, hasSharps);
      Sorted(r) && ks in r && KeySignatureCount(r) == KeySignatureCount(s) + 1
  {
    var t := Insert(s, ks);
    InsertFacts(s, ks);
    var r := RenameAll(t, offset, end, hasSharps);
    RenameKeepsShape(t, offset, end, hasSharps);
    var p := InsertPos(s, offset);
    assert t == s[..p] + [ks] + s[p..];
    assert r[p] == ks;
    KeySignatureCountSame(t, r);
    InsertedCount(s, p, ks);
  }

  lemma InsertedCount(s: Stream, p: nat, ks: Element)
    requires p <= |s| && ks.kind.KeySignature?
    ensures KeySignatureCount(s[..p] + [ks] + s[p..]) == KeySignatureCount(s) + 1
  {
    KeySignatureCountAppend(s[..p] + [ks], s[p..]);
    KeySignatureCountAppend(s[..p], [ks]);
    KeySignatureCountAppend(s[..p], s[p..]);
    assert s[..p] + s[p..] == s;
    assert KeySignatureCount([ks]) == 1 by {
      assert [ks][1..] == [];
    }
  }

  /** Renaming keeps offsets, kinds, durations and octaves, so it keeps a stream sorted. */
  lemma RenameKeepsShape(s: Stream, start: real, end: Option<real>, hasSharps: bool)
    ensures var r := RenameAll(s, start, end, hasSharps);
      (forall i :: 0 <= i < |s| ==> r[i].offset == s[i].offset) &&
      (forall i :: 0 <= i < |s| ==> (r[i].kind.Note? <==> s[i].kind.Note?)) &&
      (forall i :: 0 <= i < |s| && !s[i].kind.Note? ==> r[i] == s[i]) &&
      (forall i :: 0 <= i < |s| && s[i].offset < start ==> r[i] == s[i]) &&
      (Sorted(s) ==> Sorted(r))
  {
  }

  // ---------------------------------------------------------------------------
  // removeNote
  // ---------------------------------------------------------------------------

  /** `removeNote(offset, part, name)`: the first note at offset named `name` is removed.
      Its earlier tie partner (if any) is first updated against it, which unties them, and
      then, if it still has a later partner, it is updated against that one. The interval
      returned starts at the earlier partner's offset, or at offset, and ends at the later
      partner's offset, or at offset. With no such note nothing changes and (offset, offset)
      is returned. */
  function RemoveNoteSpec(s: Stream, offset: real, name: string): Result<(Stream, (real, real))> {
    match FirstMatch(s, NoteNamedAt(offset, name), 0)
    case None => Ok((s, (offset, offset)))
    case Some(k) =>
      var before := s[k].kind.note.partners.before;
      var s1 := if before.Some? then UpdateTieStatus(s, before.value, name, false) else Ok(s);
      if s1.Raise? then Raise(s1.exc)
      else
        var after := s1.value[k].kind.note.partners.after;
        var s2 := if after.Some? then UpdateTieStatus(s1.value, offset, name, false) else Ok(s1.value);
        if s2.Raise? then Raise(s2.exc)
        else
          Ok((RemoveAt(s2.value, k), (if before.Some? then before.value else offset,
                                      if after.Some? then after.value else offset)))
  }

  method RemoveNote(s: Stream, offset: real, name: string) returns (r: Result<(Stream, (real, real))>)
    ensures r == RemoveNoteSpec(s, offset, name)
  {
    var found := FindFirst(s, NoteNamedAt(offset, name), 0);
    if found.None? {
      return Ok((s, (offset, offset)));
    }
    var k := found.value;
    var lo, hi := offset, offset;
    var cur := s;
    var before := s[k].kind.note.partners.before;
    if before.Some? {
      lo := before.value;
      var u := UpdateTieStatusLoop(cur, before.value, name);
      if u.Raise? {
        return Raise(u.exc);
      }
      cur := u.value;
    }
    var after := cur[k].kind.note.partners.after;
    if after.Some? {
      hi := after.value;
      var u := UpdateTieStatusLoop(cur, offset, name);
      if u.Raise? {
        return Raise(u.exc);
      }
      cur := u.value;
    }
    return Ok((RemoveAt(cur, k), (lo, hi)));
  }

  /** No note is linked to a tie partner. */
  predicate Unlinked(s: Stream) {
    forall i :: 0 <= i < |s| && s[i].kind.Note? ==> s[i].kind.note.partners == TiePartners(None, None)
  }

  /** Without a match nothing changes; an unlinked note is simply removed, and the interval
      is the note's own offset at both ends; a removal keeps the stream sorted. When the
      note is linked, exactly one element leaves and the others differ from the original
      only in ties and partners; the interval starts at the earlier partner's offset and
      ends at the later partner's offset as it stands once the earlier partner has been
      updated (the original later partner when there is no earlier one). */
  lemma RemoveNoteFacts(s: Stream, offset: real, name: string)
    ensures FirstMatch(s, NoteNamedAt(offset, name), 0).None? ==>
      RemoveNoteSpec(s, offset, name) == Ok((s, (offset, offset)))
    ensures var k := FirstMatch(s, NoteNamedAt(offset, name), 0);
      k.Some? && s[k.value].kind.note.partners == TiePartners(None, None) ==>
      RemoveNoteSpec(s, offset, name) == Ok((RemoveAt(s, k.value), (offset, offset)))
    ensures var r := RemoveNoteSpec(s, offset, name);
      Sorted(s) && r.Ok? ==> Sorted(r.value.0)
    ensures var k := FirstMatch(s, NoteNamedAt(offset, name), 0);
      var r := RemoveNoteSpec(s, offset, name);
      k.Some? && r.Ok? ==>
        |r.value.0| == |s| - 1 && SameShape(RemoveAt(s, k.value), r.value.0) &&
        var p := s[k.value].kind.note.partners;
        r.value.1.0 == (if p.before.Some? then p.before.value else offset) &&
        (p.before.None? ==> r.value.1.1 == (if p.after.Some? then p.after.value else offset))
    ensures var k := FirstMatch(s, NoteNamedAt(offset, name), 0);
      var r := RemoveNoteSpec(s, offset, name);
      k.Some? && r.Ok? && s[k.value].kind.note.partners.before.Some? ==>
        var s1 := UpdateTieStatus(s, s[k.value].kind.note.partners.before.value, name, false);
        s1.Ok? && k.value < |s1.value| && s1.value[k.value].kind.Note? &&
        var after := s1.value[k.value].kind.note.partners.after;
        r.value.1.1 == (if after.Some? then after.value else offset)
  {
    var k := FirstMatch(s, NoteNamedAt(offset, name), 0);
    if k.Some? && RemoveNoteSpec(s, offset, name).Ok? {
      var before := s[k.value].kind.note.partners.before;
      var s1 := if before.Some? then UpdateTieStatus(s, before.value, name, false) else Ok(s);
      var after := s1.value[k.value].kind.note.partners.after;
      var s2 := if after.Some? then UpdateTieStatus(s1.value, offset, name, false) else Ok(s1.value);
      SameShapeTrans(s, s1.value, s2.value);
      RemoveAtSameShape(s, s2.value, k.value);
      if Sorted(s) {
        SameShapeSorted(s, s1.value);
        SameShapeSorted(s1.value, s2.value);
        RemoveAtSorted(s2.value, k.value);
      }
    }
  }

  lemma RemoveAtSameShape(s: Stream, t: Stream, k: nat)
    requires SameShape(s, t) && k < |s|
    ensures SameShape(RemoveAt(s, k), RemoveAt(t, k))
  {
    var a, b := RemoveAt(s, k), RemoveAt(t, k);
    forall i | 0 <= i < |a|
      ensures a[i].offset == b[i].offset && a[i].kind.Note? == b[i].kind.Note?
    {
      if i >= k {
        assert a[i] == s[i + 1] && b[i] == t[i + 1];
      }
    }
  }

  lemma SameShapeSorted(s: Stream, t: Stream)
    requires SameShape(s, t) && Sorted(s)
    ensures Sorted(t)
  {
  }

  // ---------------------------------------------------------------------------
  // insertNote
  // ---------------------------------------------------------------------------

  /** A note whose interval [offset, offset + duration) strictly overlaps (lo, hi): notes that
      only touch the new note are not overlapping. */
  predicate Overlaps(e: Element, lo: real, hi: real) {
    e.kind.Note? && lo < e.offset + e.kind.note.duration && e.offset < hi
  }

  /** The `maxLims` accumulation: the first interval, then the smallest start and the
      largest end seen. */
  function Hull(h: Option<(real, real)>, lim: (real, real)): (real, real) {
    if h.None? then lim else (Min(h.value.0, lim.0), Max(h.value.1, lim.1))
  }

  /** The loop of `insertNote` over the notes of the stream as they were when it started:
      each one overlapping (lo, hi) is removed with `removeNote` from the current stream and
      its interval joins the hull. */
  function InsertLoop(orig: Stream, i: nat, cur: Stream, lo: real, hi: real, h: Option<(real, real)>):
    Result<(Stream, Option<(real, real)>)>
    requires i <= |orig|
    decreases |orig| - i
  {
    if i == |orig| then Ok((cur, h))
    else if Overlaps(orig[i], lo, hi) then
      var e := orig[i];
      var removed := RemoveNoteSpec(cur, e.offset, NameWithOctave(e.kind.note.pitch));
      if removed.Raise? then Raise(removed.exc)
      else InsertLoop(orig, i + 1, removed.value.0, lo, hi,
                      Some(Hull(h, (e.offset, e.offset + e.kind.note.duration))))
    else InsertLoop(orig, i + 1, cur, lo, hi, h)
  }

  /** `insertNote(offset, part, pitch, duration)`: removes the overlapping notes, inserts a
      new untied note and returns the hull of its interval and the removed ones. */
  function InsertNoteSpec(s: Stream, offset: real, p: Pitch, duration: real): Result<(Stream, (real, real))> {
    var lo, hi := offset, offset + duration;
    var looped := InsertLoop(s, 0, s, lo, hi, None);
    if looped.Raise? then Raise(looped.exc)
    else Ok((Insert(looped.value.0, Element(offset, Note(FreshNote(p, duration)))), Hull(looped.value.1, (lo, hi))))
  }

  method InsertNote(s: Stream, offset: real, p: Pitch, duration: real) returns (r: Result<(Stream, (real, real))>)
    ensures r == InsertNoteSpec(s, offset, p, duration)
  {
    var lo, hi := offset, offset + duration;
    var cur := s;
    var h: Option<(real, real)> := None;
    var i := 0;
    while i < |s|
      invariant i <= |s|
      invariant InsertLoop(s, 0, s, lo, hi, None) == InsertLoop(s, i, cur, lo, hi, h)
      decreases |s| - i
    {
      var e := s[i];
      if Overlaps(e, lo, hi) {
        var removed := RemoveNote(cur, e.offset, NameWithOctave(e.kind.note.pitch));
        if removed.Raise? {
          return Raise(removed.exc);
        }
        cur := removed.value.0;
        h := Some(Hull(h, (e.offset, e.offset + e.kind.note.duration)));
      }
      i := i + 1;
    }
    return Ok((Insert(cur, Element(offset, Note(FreshNote(p, duration)))), Hull(h, (lo, hi))));
  }

  /** The hull the loop builds from the overlapping notes of orig[i..], whatever the
      removals did. */
  function HullOf(orig: Stream, i: nat, lo: real, hi: real, h: Option<(real, real)>): Option<(real, real)>
    requires i <= |orig|
    decreases |orig| - i
  {
    if i == |orig| then h
    else if Overlaps(orig[i], lo, hi) then
      HullOf(orig, i + 1, lo, hi, Some(Hull(h, (orig[i].offset, orig[i].offset + orig[i].kind.note.duration))))
    else HullOf(orig, i + 1, lo, hi, h)
  }

  lemma {:induction false} InsertLoopHull(orig: Stream, i: nat, cur: Stream, lo: real, hi: real, h: Option<(real, real)>)
    requires i <= |orig|
    ensures InsertLoop(orig, i, cur, lo, hi, h).Ok? ==>
      InsertLoop(orig, i, cur, lo, hi, h).value.1 == HullOf(orig, i, lo, hi, h)
    decreases |orig| - i
  {
    if i < |orig| {
      if Overlaps(orig[i], lo, hi) {
        var e := orig[i];
        var removed := RemoveNoteSpec(cur, e.offset, NameWithOctave(e.kind.note.pitch));
        if removed.Ok? {
          InsertLoopHull(orig, i + 1, removed.value.0, lo, hi, Some(Hull(h, (e.offset, e.offset + e.kind.note.duration))));
        }
      } else {
        InsertLoopHull(orig, i + 1, cur, lo, hi, h);
      }
    }
  }

  /** The hull of orig[i..] contains the running hull and every overlapping interval from i
      on, and each end is an end of the running hull or of one of those intervals. */
  lemma {:induction false} HullOfBounds(orig: Stream, i: nat, lo: real, hi: real, h: Option<(real, real)>)
    requires i <= |orig|
    ensures var r := HullOf(orig, i, lo, hi, h);
      (h.Some? || exists j :: i <= j < |orig| && Overlaps(orig[j], lo, hi)) ==> r.Some?
    ensures var r := HullOf(orig, i, lo, hi, h);
      r.Some? ==>
        (h.Some? ==> r.value.0 <= h.value.0 && h.value.1 <= r.value.1) &&
        (forall j :: i <= j < |orig| && Overlaps(orig[j], lo, hi) ==>
           r.value.0 <= orig[j].offset && orig[j].offset + orig[j].kind.note.duration <= r.value.1) &&
        ((h.Some? && r.value.0 == h.value.0) ||
         exists j :: i <= j < |orig| && Overlaps(orig[j], lo, hi) && r.value.0 == orig[j].offset) &&
        ((h.Some? && r.value.1 == h.value.1) ||
         exists j :: i <= j < |orig| && Overlaps(orig[j], lo, hi) && r.value.1 == orig[j].offset + orig[j].kind.note.duration)
    decreases |orig| - i
  {
    if i < |orig| {
      if Overlaps(orig[i], lo, hi) {
        HullOfBounds(orig, i + 1, lo, hi, Some(Hull(h, (orig[i].offset, orig[i].offset + orig[i].kind.note.duration))));
      } else {
        HullOfBounds(orig, i + 1, lo, hi, h);
      }
    }
  }

  /** The interval insertNote returns covers the new note and every note it overlapped, and
      each of its ends is an end of one of those. */
  lemma InsertNoteInterval(s: Stream, offset: real, p: Pitch, duration: real)
    ensures var r := InsertNoteSpec(s, offset, p, duration);
      r.Ok? ==>
        var (a, b) := r.value.1;
        a <= offset && offset + duration <= b &&
        (forall j :: 0 <= j < |s| && Overlaps(s[j], offset, offset + duration) ==>
           a <= s[j].offset && s[j].offset + s[j].kind.note.duration <= b) &&
        (a == offset || exists j :: 0 <= j < |s| && Overlaps(s[j], offset, offset + duration) && a == s[j].offset) &&
        (b == offset + duration ||
         exists j :: 0 <= j < |s| && Overlaps(s[j], offset, offset + duration) && b == s[j].offset + s[j].kind.note.duration)
  {
    var lo, hi := offset, offset + duration;
    InsertLoopHull(s, 0, s, lo, hi, None);
    HullOfBounds(s, 0, lo, hi, None);
  }

  /** The notes that do not overlap (lo, hi), and every element that is not a note, in order. */
  function KeepNonOverlapping(s: Stream, lo: real, hi: real): (r: Stream)
    ensures forall e :: e in r ==> e in s && !Overlaps(e, lo, hi)
  {
    if s == [] then []
    else (if Overlaps(s[0], lo, hi) then [] else [s[0]]) + KeepNonOverlapping(s[1..], lo, hi)
  }

  lemma {:induction false} KeepAppend(a: Stream, b: Stream, lo: real, hi: real)
    ensures KeepNonOverlapping(a + b, lo, hi) == KeepNonOverlapping(a, lo, hi) + KeepNonOverlapping(b, lo, hi)
  {
    if a == [] {
      assert a + b == b;
    } else {
      assert (a + b)[1..] == a[1..] + b;
      KeepAppend(a[1..], b, lo, hi);
    }
  }

  /** No two notes at the same offset have the same name. */
  predicate DistinctNotes(s: Stream) {
    forall i, j :: 0 <= i < j < |s| && s[i].kind.Note? && s[j].kind.Note? && s[i].offset == s[j].offset ==>
      NameWithOctave(s[i].kind.note.pitch) != NameWithOctave(s[j].kind.note.pitch)
  }

  /** The loop with the kept prefix in front of the rest: each overlapping note is the
      first note of its offset and name, so removeNote takes out exactly that note. */
  lemma {:induction false} InsertLoopKeeps(orig: Stream, i: nat, lo: real, hi: real, h: Option<(real, real)>)
    requires i <= |orig| && DistinctNotes(orig) && Unlinked(orig)
    ensures var r := InsertLoop(orig, i, KeepNonOverlapping(orig[..i], lo, hi) + orig[i..], lo, hi, h);
      r.Ok? && r.value.0 == KeepNonOverlapping(orig, lo, hi)
    decreases |orig| - i
  {
    if i == |orig| {
      assert orig[..i] == orig;
    } else {
      InsertLoopKeepStep(orig, i, lo, hi, h);
      InsertLoopKeeps(orig, i + 1, lo, hi, NextHull(orig, i, lo, hi, h));
    }
  }

  /** The running hull after step i. */
  function NextHull(orig: Stream, i: nat, lo: real, hi: real, h: Option<(real, real)>): Option<(real, real)>
    requires i < |orig|
  {
    if Overlaps(orig[i], lo, hi) then Some(Hull(h, (orig[i].offset, orig[i].offset + orig[i].kind.note.duration)))
    else h
  }

  lemma InsertLoopKeepStep(orig: Stream, i: nat, lo: real, hi: real, h: Option<(real, real)>)
    requires i < |orig| && DistinctNotes(orig) && Unlinked(orig)
    ensures InsertLoop(orig, i, KeepNonOverlapping(orig[..i], lo, hi) + orig[i..], lo, hi, h) ==
            InsertLoop(orig, i + 1, KeepNonOverlapping(orig[..i + 1], lo, hi) + orig[i + 1..], lo, hi, NextHull(orig, i, lo, hi, h))
  {
    var kept := KeepNonOverlapping(orig[..i], lo, hi);
    KeepStep(orig, i, lo, hi);
    if Overlaps(orig[i], lo, hi) {
      KeptFirstMatch(orig, i, lo, hi);
      assert orig[i].kind.note.partners == TiePartners(None, None);
      InsertLoopDropStep(orig, i, lo, hi, h, kept);
      assert KeepNonOverlapping(orig[..i + 1], lo, hi) == kept;
    } else {
      assert kept + orig[i..] == (kept + [orig[i]]) + orig[i + 1..] by {
        assert orig[i..] == [orig[i]] + orig[i + 1..];
      }
      InsertLoopPassStep(orig, i, lo, hi, h, kept + orig[i..]);
    }
  }

  /** A step over an element that does not overlap leaves the stream and the hull alone. */
  lemma InsertLoopPassStep(orig: Stream, i: nat, lo: real, hi: real, h: Option<(real, real)>, cur: Stream)
    requires i < |orig| && !Overlaps(orig[i], lo, hi)
    ensures InsertLoop(orig, i, cur, lo, hi, h) == InsertLoop(orig, i + 1, cur, lo, hi, NextHull(orig, i, lo, hi, h))
  {
  }

  /** An overlapping step: removeNote takes the unlinked orig[i], the first match, out of
      the kept prefix followed by orig[i..]. */
  lemma InsertLoopDropStep(orig: Stream, i: nat, lo: real, hi: real, h: Option<(real, real)>, kept: Stream)
    requires i < |orig| && Overlaps(orig[i], lo, hi)
    requires orig[i].kind.note.partners == TiePartners(None, None)
    requires FirstMatch(kept + orig[i..], NoteNamedAt(orig[i].offset, NameWithOctave(orig[i].kind.note.pitch)), 0) == Some(|kept|)
    ensures InsertLoop(orig, i, kept + orig[i..], lo, hi, h) ==
            InsertLoop(orig, i + 1, kept + orig[i + 1..], lo, hi, NextHull(orig, i, lo, hi, h))
  {
    var cur := kept + orig[i..];
    var e := orig[i];
    assert cur == kept + [e] + orig[i + 1..] by {
      assert orig[i..] == [e] + orig[i + 1..];
    }
    assert cur[|kept|] == e;
    RemoveNoteFacts(cur, e.offset, NameWithOctave(e.kind.note.pitch));
    SpliceOut(kept, e, orig[i + 1..]);
    InsertLoopRemoves(orig, i, cur, lo, hi, h, kept + orig[i + 1..]);
  }

  /** One overlapping step of the loop, once removeNote has succeeded. */
  lemma InsertLoopRemoves(orig: Stream, i: nat, cur: Stream, lo: real, hi: real, h: Option<(real, real)>, next: Stream)
    requires i < |orig| && Overlaps(orig[i], lo, hi)
    requires RemoveNoteSpec(cur, orig[i].offset, NameWithOctave(orig[i].kind.note.pitch)) ==
             Ok((next, (orig[i].offset, orig[i].offset)))
    ensures InsertLoop(orig, i, cur, lo, hi, h) ==
      InsertLoop(orig, i + 1, next, lo, hi, Some(Hull(h, (orig[i].offset, orig[i].offset + orig[i].kind.note.duration))))
  {
  }

  lemma KeepStep(orig: Stream, i: nat, lo: real, hi: real)
    requires i < |orig|
    ensures KeepNonOverlapping(orig[..i + 1], lo, hi) ==
      KeepNonOverlapping(orig[..i], lo, hi) + (if Overlaps(orig[i], lo, hi) then [] else [orig[i]])
  {
    assert orig[..i + 1] == orig[..i] + [orig[i]];
    KeepAppend(orig[..i], [orig[i]], lo, hi);
    assert [orig[i]][1..] == [];
  }

  /** In the kept prefix followed by orig[i..], the first note at orig[i]'s offset with its
      name is orig[i] itself: a kept note before it with the same offset and name would be a
      duplicate in orig. */
  lemma KeptFirstMatch(orig: Stream, i: nat, lo: real, hi: real)
    requires i < |orig| && DistinctNotes(orig) && orig[i].kind.Note?
    ensures var kept := KeepNonOverlapping(orig[..i], lo, hi);
      var cur := kept + orig[i..];
      FirstMatch(cur, NoteNamedAt(orig[i].offset, NameWithOctave(orig[i].kind.note.pitch)), 0) == Some(|kept|)
  {
    var e := orig[i];
    var sel := NoteNamedAt(e.offset, NameWithOctave(e.kind.note.pitch));
    var kept := KeepNonOverlapping(orig[..i], lo, hi);
    var cur := kept + orig[i..];
    assert cur[|kept|] == e;
    forall j | 0 <= j < |kept| ensures !Matches(cur[j], sel) {
      assert cur[j] == kept[j];
      assert kept[j] in orig[..i];
      var j' :| 0 <= j' < i && orig[j'] == kept[j];
    }
    FirstMatchFrom(cur, sel, |kept|);
  }

  /** The first match from 0 is k when nothing before k matches and s[k] does. */
  lemma {:induction false} FirstMatchFrom(s: Stream, sel: Selector, k: nat)
    requires k < |s| && Matches(s[k], sel)
    requires forall j :: 0 <= j < k ==> !Matches(s[j], sel)
    ensures FirstMatch(s, sel, 0) == Some(k)
  {
    FirstMatchSkip(s, sel, 0, k);
  }

  lemma {:induction false} FirstMatchSkip(s: Stream, sel: Selector, from: nat, k: nat)
    requires from <= k < |s| && Matches(s[k], sel)
    requires forall j :: from <= j < k ==> !Matches(s[j], sel)
    ensures FirstMatch(s, sel, from) == Some(k)
    decreases k - from
  {
    if from < k {
      FirstMatchSkip(s, sel, from + 1, k);
    }
  }

  /** When no two notes at one offset share a name and no note is tied to a partner,
      insertNote takes out exactly the notes that strictly overlap the new one, keeps every
      other element in order, and inserts the new note. */
  lemma InsertNoteContents(s: Stream, offset: real, p: Pitch, duration: real)
    requires DistinctNotes(s) && Unlinked(s)
    ensures var r := InsertNoteSpec(s, offset, p, duration);
      r.Ok? &&
      r.value.0 == Insert(KeepNonOverlapping(s, offset, offset + duration), Element(offset, Note(FreshNote(p, duration))))
  {
    InsertLoopKeeps(s, 0, offset, offset + duration, None);
    assert s[..0] == [];
    assert KeepNonOverlapping(s[..0], offset, offset + duration) + s[0..] == s;
  }

  // ---------------------------------------------------------------------------
  // insertClef/removeClef, addInstrument/removeInstrument, addDynamic/removeDynamic
  // ---------------------------------------------------------------------------

  /** Replace the first element of the kind at the offset, else insert the new one. */
  function Upsert(s: Stream, e: Element, t: Tag): Stream {
    match FirstMatch(s, TagAt(e.offset, t), 0)
    case Some(k) => s[k := e]
    case None => Insert(s, e)
  }

  /** Remove the first element of the kind at the offset, if there is one. */
  function RemoveTagged(s: Stream, offset: real, t: Tag): Stream {
    match FirstMatch(s, TagAt(offset, t), 0)
    case Some(k) => RemoveAt(s, k)
    case None => s
  }

  /** After an upsert the new element is the first of its kind at its offset, the stream is
      sorted, and the elements at every other offset are those there before. */
  lemma UpsertFacts(s: Stream, e: Element, t: Tag, o: real)
    requires Sorted(s) && HasTag(e, t) && o != e.offset
    ensures var r := Upsert(s, e, t);
      Sorted(r) &&
      (exists k :: FirstMatch(r, TagAt(e.offset, t), 0) == Some(k) && r[k] == e) &&
      AtOffset(r, o) == AtOffset(s, o)
  {
    var found := FirstMatch(s, TagAt(e.offset, t), 0);
    if found.Some? {
      var k := found.value;
      assert Upsert(s, e, t) == s[k := e];
      ReplaceSameOffsetSorted(s, k, e);
      FirstMatchFrom(s[k := e], TagAt(e.offset, t), k);
      AtOffsetReplace(s, k, e, o);
    } else {
      assert Upsert(s, e, t) == Insert(s, e);
      InsertFacts(s, e);
      InsertedFirst(s, e, t);
      AtOffsetInsert(s, e, o);
    }
  }

  /** Replacing an element at offset e.offset does not change what is at another offset. */
  lemma AtOffsetReplace(s: Stream, k: nat, e: Element, o: real)
    requires k < |s| && s[k].offset == e.offset && o != e.offset
    ensures AtOffset(s[k := e], o) == AtOffset(s, o)
  {
    assert s == s[..k] + [s[k]] + s[k + 1..];
    assert s[k := e] == s[..k] + [e] + s[k + 1..];
    AtOffsetAppend(s[..k] + [s[k]], s[k + 1..], o);
    AtOffsetAppend(s[..k], [s[k]], o);
    AtOffsetAppend(s[..k] + [e], s[k + 1..], o);
    AtOffsetAppend(s[..k], [e], o);
    assert [s[k]][1..] == [] && [e][1..] == [];
  }

  /** Inserting an element at e.offset does not change what is at another offset. */
  lemma AtOffsetInsert(s: Stream, e: Element, o: real)
    requires o != e.offset
    ensures AtOffset(Insert(s, e), o) == AtOffset(s, o)
  {
    var p := InsertPos(s, e.offset);
    var a, b := s[..p], s[p..];
    assert AtOffset([e], o) == [] by {
      assert [e][1..] == [];
    }
    calc {
      AtOffset(Insert(s, e), o);
      AtOffset(a + [e] + b, o);
      { AtOffsetAppend(a + [e], b, o); }
      AtOffset(a + [e], o) + AtOffset(b, o);
      { AtOffsetAppend(a, [e], o); }
      AtOffset(a, o) + AtOffset(b, o);
      { AtOffsetAppend(a, b, o); }
      AtOffset(a + b, o);
      { assert a + b == s; }
      AtOffset(s, o);
    }
  }

  /** Where none of its kind was at its offset, an inserted element is the first of its kind
      there, at its insertion position. */
  lemma InsertedFirst(s: Stream, e: Element, t: Tag)
    requires Sorted(s) && HasTag(e, t) && FirstMatch(s, TagAt(e.offset, t), 0).None?
    ensures FirstMatch(Insert(s, e), TagAt(e.offset, t), 0) == Some(InsertPos(s, e.offset))
  {
    var r := Insert(s, e);
    var p := InsertPos(s, e.offset);
    assert r == s[..p] + [e] + s[p..];
    forall j | 0 <= j < p ensures !Matches(r[j], TagAt(e.offset, t)) {
      assert r[j] == s[j];
    }
    FirstMatchFrom(r, TagAt(e.offset, t), p);
  }

  /** Removing takes out exactly the first element of the kind at the offset; inserting an
      element where none of its kind was and removing it again restores the stream. */
  lemma RemoveTaggedFacts(s: Stream, e: Element, t: Tag)
    requires Sorted(s) && HasTag(e, t)
    ensures var k := FirstMatch(s, TagAt(e.offset, t), 0);
      RemoveTagged(s, e.offset, t) == if k.Some? then RemoveAt(s, k.value) else s
    ensures FirstMatch(s, TagAt(e.offset, t), 0).None? ==> RemoveTagged(Upsert(s, e, t), e.offset, t) == s
  {
    if FirstMatch(s, TagAt(e.offset, t), 0).None? {
      assert Upsert(s, e, t) == Insert(s, e);
      InsertThenRemove(s, e, t);
    }
  }

  /** Removing the element just inserted where none of its kind was gives the stream back. */
  lemma InsertThenRemove(s: Stream, e: Element, t: Tag)
    requires Sorted(s) && HasTag(e, t) && FirstMatch(s, TagAt(e.offset, t), 0).None?
    ensures RemoveTagged(Insert(s, e), e.offset, t) == s
  {
    var p := InsertPos(s, e.offset);
    InsertedFirst(s, e, t);
    var r := Insert(s, e);
    assert RemoveTagged(r, e.offset, t) == RemoveAt(r, p);
    SpliceOut(s[..p], e, s[p..]);
    assert s[..p] + s[p..] == s;
  }

  /** Taking out the element between two halves leaves the halves joined. */
  lemma SpliceOut(a: Stream, e: Element, b: Stream)
    ensures RemoveAt(a + [e] + b, |a|) == a + b
  {
    var r := a + [e] + b;
    assert r[..|a|] == a && r[|a| + 1..] == b;
  }

  /** `insertClef(offset, part, clef)`; returns the new stream and
      `part.getElementsByOffset(offset)`. */
  method InsertClef(s: Stream, offset: real, clef: string) returns (r: Stream, at: Stream)
    ensures r == Upsert(s, Element(offset, Clef(clef)), ClefTag) && at == AtOffset(r, offset)
  {
    r := UpsertLoop(s, Element(offset, Clef(clef)), ClefTag);
    at := AtOffset(r, offset);
  }

  method RemoveClef(s: Stream, offset: real) returns (r: Stream, at: Stream)
    ensures r == RemoveTagged(s, offset, ClefTag) && at == AtOffset(r, offset)
  {
    r := RemoveLoop(s, offset, ClefTag);
    at := AtOffset(r, offset);
  }

  method AddInstrument(s: Stream, offset: real, instrument: string) returns (r: Stream, at: Stream)
    ensures r == Upsert(s, Element(offset, Instrument(instrument)), InstrumentTag) && at == AtOffset(r, offset)
  {
    r := UpsertLoop(s, Element(offset, Instrument(instrument)), InstrumentTag);
    at := AtOffset(r, offset);
  }

  method RemoveInstrument(s: Stream, offset: real) returns (r: Stream, at: Stream)
    ensures r == RemoveTagged(s, offset, InstrumentTag) && at == AtOffset(r, offset)
  {
    r := RemoveLoop(s, offset, InstrumentTag);
    at := AtOffset(r, offset);
  }

  method AddDynamic(s: Stream, offset: real, dynamic: string) returns (r: Stream, at: Stream)
    ensures r == Upsert(s, Element(offset, Dynamic(dynamic)), DynamicTag) && at == AtOffset(r, offset)
  {
    r := UpsertLoop(s, Element(offset, Dynamic(dynamic)), DynamicTag);
    at := AtOffset(r, offset);
  }

  method RemoveDynamic(s: Stream, offset: real) returns (r: Stream, at: Stream)
    ensures r == RemoveTagged(s, offset, DynamicTag) && at == AtOffset(r, offset)
  {
    r := RemoveLoop(s, offset, DynamicTag);
    at := AtOffset(r, offset);
  }

  /** The search loop shared by the three upserts. */
  method UpsertLoop(s: Stream, e: Element, t: Tag) returns (r: Stream)
    ensures r == Upsert(s, e, t)
  {
    var k := FindFirst(s, TagAt(e.offset, t), 0);
    if k.Some? {
      r := s[k.value := e];
    } else {
      r := Insert(s, e);
    }
  }

  /** The search loop shared by the three removals. */
  method RemoveLoop(s: Stream, offset: real, t: Tag) returns (r: Stream)
    ensures r == RemoveTagged(s, offset, t)
  {
    var k := FindFirst(s, TagAt(offset, t), 0);
    if k.Some? {
      r := RemoveAt(s, k.value);
    } else {
      r := s;
    }
  }

  // ---------------------------------------------------------------------------
  // addLyric
  // ---------------------------------------------------------------------------

  /** `addLyric(offset, part, lyric)`: the first note at the offset gets the lyric appended;
      nothing else changes, and nothing at all when no note is there. */
  method AddLyric(s: Stream, offset: real, lyric: string) returns (r: Stream, at: Stream)
    ensures |r| == |s| && at == AtOffset(r, offset)
    ensures var k := FirstMatch(s, AnyNoteAt(offset), 0);
      (k.None? ==> r == s) &&
      (k.Some? ==>
        r[k.value] == Element(offset, Note(s[k.value].kind.note.(lyrics := s[k.value].kind.note.lyrics + [lyric]))) &&
        forall i :: 0 <= i < |s| && i != k.value ==> r[i] == s[i])
  {
    var k := FindFirst(s, AnyNoteAt(offset), 0);
    r := s;
    if k.Some? {
      var n := s[k.value].kind.note;
      r := s[k.value := Element(offset, Note(n.(lyrics := n.lyrics + [lyric])))];
    }
    at := AtOffset(r, offset);
  }
}
