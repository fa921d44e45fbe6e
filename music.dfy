/** The part of music21's data model that util/musicFuns.py relies on: a stream is a sequence
    of elements sorted by offset (in quarter lengths, exact rationals here), each a note, a
    key signature, a clef, an instrument, a dynamic, a metronome mark or a measure. */
module Music {
  import opened Outcomes
  import opened PyCore

  datatype TieType = Start | Stop | Continue

  /** A pitch as music21 spells it: a name such as "C", "F#" or "E-" and an octave. */
  datatype Pitch = Pitch(name: string, octave: int)

  /** The offsets a note's tie partners sit at (`tiePartners[0]` and `tiePartners[1]`). */
  datatype TiePartners = TiePartners(before: Option<real>, after: Option<real>)

  datatype NoteData = NoteData(
    pitch: Pitch,
    duration: real,
    tie: Option<TieType>,
    partners: TiePartners,
    lyrics: seq<string>)

  datatype Kind =
    | Note(note: NoteData)
    | KeySignature(sharps: int)
    | Clef(clef: string)
    | Instrument(instrument: string)
    | Dynamic(dynamic: string)
    | MetronomeMark(bpm: int)
    | Measure(contents: seq<Element>)

  datatype Element = Element(offset: real, kind: Kind)

  type Stream = seq<Element>

  /** `pitch.nameWithOctave`. */
  function NameWithOctave(p: Pitch): string {
    p.name + IntStr(p.octave)
  }

  /** What `createNote(name, quarterLength)` builds: untied, no partners, no lyrics. */
  function FreshNote(p: Pitch, duration: real): NoteData {
    NoteData(p, duration, None, TiePartners(None, None), [])
  }

  predicate IsNote(e: Element) {
    e.kind.Note?
  }

  /** A note at offset o whose `nameWithOctave` is name. */
  predicate IsNoteNamed(e: Element, o: real, name: string) {
    e.kind.Note? && e.offset == o && NameWithOctave(e.kind.note.pitch) == name
  }

  /** The element kinds the upsert helpers tell apart by attribute: only clefs have
      `octaveChange`, only instruments `instrumentName`, only dynamics `volumeScalar`. */
  datatype Tag = ClefTag | InstrumentTag | DynamicTag | KeySignatureTag

  predicate HasTag(e: Element, t: Tag) {
    match t
    case ClefTag => e.kind.Clef?
    case InstrumentTag => e.kind.Instrument?
    case DynamicTag => e.kind.Dynamic?
    case KeySignatureTag => e.kind.KeySignature?
  }

  /** Elements are in offset order, as music21 keeps a stream. */
  predicate Sorted(s: Stream) {
    forall i, j :: 0 <= i < j < |s| ==> s[i].offset <= s[j].offset
  }

  /** `part.getElementsByOffset(o)`: the elements at exactly o, in stream order. */
  function AtOffset(s: Stream, o: real): (r: Stream)
    ensures |r| <= |s|
    ensures forall i :: 0 <= i < |r| ==> r[i].offset == o
    ensures forall e :: e in r <==> e in s && e.offset == o
  {
    if s == [] then []
    else (if s[0].offset == o then [s[0]] else []) + AtOffset(s[1..], o)
  }

  /** AtOffset depends only on the elements at that offset. */
  lemma {:induction false} AtOffsetAppend(a: Stream, b: Stream, o: real)
    ensures AtOffset(a + b, o) == AtOffset(a, o) + AtOffset(b, o)
  {
    if a == [] {
      assert a + b == b;
    } else {
      assert (a + b)[1..] == a[1..] + b;
      AtOffsetAppend(a[1..], b, o);
    }
  }

  /** Where `part.insert(o, e)` places e: after the last element at an offset up to o, so
      every element from there on lies strictly later. */
  function InsertPos(s: Stream, o: real): (k: nat)
    ensures k <= |s|
    ensures forall i :: k <= i < |s| ==> s[i].offset > o
    ensures k > 0 ==> s[k - 1].offset <= o
  {
    if s == [] then 0
    else if s[|s| - 1].offset > o then InsertPos(s[..|s| - 1], o)
    else |s|
  }

  /** In a sorted stream every element before the insertion position lies at or before o. */
  lemma InsertPosBefore(s: Stream, o: real)
    requires Sorted(s)
    ensures forall i :: 0 <= i < InsertPos(s, o) ==> s[i].offset <= o
  {
    var k := InsertPos(s, o);
    if k > 0 {
      forall i | 0 <= i < k ensures s[i].offset <= o {
        assert s[i].offset <= s[k - 1].offset;
      }
    }
  }

  /** `part.insert(e.offset, e)`. */
  function Insert(s: Stream, e: Element): Stream {
    var k := InsertPos(s, e.offset);
    s[..k] + [e] + s[k..]
  }

  /** Inserting keeps the stream sorted and adds exactly the one element. */
  lemma InsertFacts(s: Stream, e: Element)
    requires Sorted(s)
    ensures Sorted(Insert(s, e))
    ensures multiset(Insert(s, e)) == multiset(s) + multiset{e}
    ensures |Insert(s, e)| == |s| + 1
  {
    InsertSorted(s, e);
    InsertMultiset(s, e);
  }

  lemma InsertMultiset(s: Stream, e: Element)
    ensures multiset(Insert(s, e)) == multiset(s) + multiset{e}
  {
    var k := InsertPos(s, e.offset);
    var a, b := s[..k], s[k..];
    assert Insert(s, e) == a + [e] + b;
    assert s == a + b;
    assert multiset(a + [e] + b) == multiset(a) + multiset{e} + multiset(b);
  }

  lemma InsertSorted(s: Stream, e: Element)
    requires Sorted(s)
    ensures Sorted(Insert(s, e))
  {
    var k := InsertPos(s, e.offset);
    var r := Insert(s, e);
    InsertPosBefore(s, e.offset);
    assert forall i :: 0 <= i < k ==> r[i] == s[i];
    assert r[k] == e;
    assert forall i :: k < i < |r| ==> r[i] == s[i - 1];
    forall i, j | 0 <= i < j < |r| ensures r[i].offset <= r[j].offset {
      if j < k {
      } else if i < k && j == k {
      } else if i < k {
        assert s[i].offset <= s[j - 1].offset;
      } else if i == k {
      } else {
        assert s[i - 1].offset <= s[j - 1].offset;
      }
    }
  }

  /** Removes the element at index k (`part.remove(el)` of the element found there). */
  function RemoveAt(s: Stream, k: nat): (r: Stream)
    requires k < |s|
    ensures |r| == |s| - 1
    ensures forall i :: 0 <= i < k ==> r[i] == s[i]
    ensures forall i :: k <= i < |r| ==> r[i] == s[i + 1]
  {
    s[..k] + s[k + 1..]
  }

  lemma RemoveAtSorted(s: Stream, k: nat)
    requires Sorted(s) && k < |s|
    ensures Sorted(RemoveAt(s, k))
    ensures multiset(RemoveAt(s, k)) == multiset(s) - multiset{s[k]}
  {
    assert s == s[..k] + [s[k]] + s[k + 1..];
  }

  /** Replaces the element at index k by one at the same offset (`part.replace`). */
  lemma ReplaceSameOffsetSorted(s: Stream, k: nat, e: Element)
    requires Sorted(s) && k < |s| && e.offset == s[k].offset
    ensures Sorted(s[k := e])
  {
  }

  // ---------------------------------------------------------------------------
  // First match searches, the shape of every `for el in ...: if ...: ...; return` loop
  // ---------------------------------------------------------------------------

  /** What a search looks for. */
  datatype Selector =
    | NoteNamedAt(o: real, name: string)
    | AnyNoteAt(o: real)
    | TagAt(o: real, tag: Tag)
    | AnyTag(tag: Tag)
    | LaterTag(o: real, tag: Tag)

  predicate Matches(e: Element, sel: Selector) {
    match sel
    case NoteNamedAt(o, name) => IsNoteNamed(e, o, name)
    case AnyNoteAt(o) => e.kind.Note? && e.offset == o
    case TagAt(o, t) => HasTag(e, t) && e.offset == o
    case AnyTag(t) => HasTag(e, t)
    case LaterTag(o, t) => HasTag(e, t) && e.offset > o
  }

  /** The index of the first element from `from` on that matches. */
  function FirstMatch(s: Stream, sel: Selector, from: nat): (r: Option<nat>)
    requires from <= |s|
    ensures r.Some? ==> from <= r.value < |s| && Matches(s[r.value], sel)
    ensures r.Some? ==> forall i :: from <= i < r.value ==> !Matches(s[i], sel)
    ensures r.None? ==> forall i :: from <= i < |s| ==> !Matches(s[i], sel)
    decreases |s| - from
  {
    if from == |s| then None
    else if Matches(s[from], sel) then Some(from)
    else FirstMatch(s, sel, from + 1)
  }

  /** The first match is determined by which elements match, so any stream that agrees
      with s on matching has the same first match. */
  lemma {:induction false} FirstMatchAgrees(s: Stream, t: Stream, sel: Selector, from: nat)
    requires from <= |s| == |t|
    requires forall i :: from <= i < |s| ==> (Matches(s[i], sel) <==> Matches(t[i], sel))
    ensures FirstMatch(s, sel, from) == FirstMatch(t, sel, from)
    decreases |s| - from
  {
    if from < |s| && !Matches(s[from], sel) {
      FirstMatchAgrees(s, t, sel, from + 1);
    }
  }

  /** The loop `for el in s[from:]: if matches: return index`. */
  method FindFirst(s: Stream, sel: Selector, from: nat) returns (r: Option<nat>)
    requires from <= |s|
    ensures r == FirstMatch(s, sel, from)
  {
    var i := from;
    while i < |s|
      invariant from <= i <= |s|
      invariant FirstMatch(s, sel, from) == FirstMatch(s, sel, i)
      decreases |s| - i
    {
      if Matches(s[i], sel) {
        return Some(i);
      }
      i := i + 1;
    }
    return None;
  }
}
