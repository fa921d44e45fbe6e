/** Ties between consecutive notes of the same pitch: the decision table of `makeTieUpdate`
    (util/musicFuns.py:233-282) and the search of `updateTieStatus` (:214-231). */
module Ties {
  import opened Outcomes
  import opened Music

  /** What `makeTieUpdate` does to a pair: tie it (point the partners at each other) or untie
      it (clear them), giving each note its new tie, or leave both alone. */
  datatype TieStep =
    | TieUp(first: Option<TieType>, second: Option<TieType>)
    | Untie(first: Option<TieType>, second: Option<TieType>)
    | Keep

  /** The decision as written. Where a branch condition reads `.tie.type` of a note whose tie
      is None, Python raises AttributeError; in particular the (None, start) branch can never
      be reached, because the branch before it already reads `firstNote.tie.type`. */
  function TieStepAsWritten(a: Option<TieType>, b: Option<TieType>): Result<TieStep> {
    if a.None? && b.None? then Ok(TieUp(Some(Start), Some(Stop)))
    else if a.None? then Raise(AttributeError)
    else if a == Some(Stop) && b.None? then Ok(TieUp(Some(Continue), Some(Stop)))
    else if a == Some(Stop) && b == Some(Start) then Ok(TieUp(Some(Continue), Some(Continue)))
    else if a == Some(Start) && b.None? then Raise(AttributeError)
    else if a == Some(Start) && b == Some(Stop) then Ok(Untie(None, None))
    else if a == Some(Start) && b == Some(Continue) then Ok(Untie(None, Some(Start)))
    else if a == Some(Continue) && b.None? then Raise(AttributeError)
    else if a == Some(Continue) && b == Some(Continue) then Ok(Untie(Some(Stop), Some(Start)))
    else if a == Some(Continue) && b == Some(Stop) then Ok(Untie(Some(Stop), None))
    else Ok(Keep)
  }

  /** The decision as intended: every listed pair takes its branch, (None, start) included,
      and every other pair is left alone. */
  function TieStepFor(a: Option<TieType>, b: Option<TieType>): TieStep {
    if a.None? && b.None? then TieUp(Some(Start), Some(Stop))
    else if a == Some(Stop) && b.None? then TieUp(Some(Continue), Some(Stop))
    else if a.None? && b == Some(Start) then TieUp(Some(Start), Some(Continue))
    else if a == Some(Stop) && b == Some(Start) then TieUp(Some(Continue), Some(Continue))
    else if a == Some(Start) && b == Some(Stop) then Untie(None, None)
    else if a == Some(Start) && b == Some(Continue) then Untie(None, Some(Start))
    else if a == Some(Continue) && b == Some(Continue) then Untie(Some(Stop), Some(Start))
    else if a == Some(Continue) && b == Some(Stop) then Untie(Some(Stop), None)
    else Keep
  }

  /** The written table agrees with the intended one wherever it does not raise, and raises
      exactly when the first note is untied and the second tied, or the first starts or
      continues a tie and the second is untied. On (None, start) it raises where the
      intended table ties. */
  lemma TieStepAsWrittenAgrees(a: Option<TieType>, b: Option<TieType>)
    ensures TieStepAsWritten(a, b).Ok? ==> TieStepAsWritten(a, b).value == TieStepFor(a, b)
    ensures TieStepAsWritten(a, b).Raise? <==>
      (a.None? && b.Some?) || ((a == Some(Start) || a == Some(Continue)) && b.None?)
    ensures TieStepAsWritten(None, Some(Start)) == Raise(AttributeError)
    ensures TieStepFor(None, Some(Start)) == TieUp(Some(Start), Some(Continue))
  {
  }

  /** The ties a step leaves on the pair. */
  function After(step: TieStep, a: Option<TieType>, b: Option<TieType>): (Option<TieType>, Option<TieType>) {
    if step.Keep? then (a, b) else (step.first, step.second)
  }

  /** Tying and untying undo each other: applying the table to the pair a step produced takes
      the other kind of step and restores the original ties. */
  lemma TieStepInverse(a: Option<TieType>, b: Option<TieType>)
    requires !TieStepFor(a, b).Keep?
    ensures var (a2, b2) := After(TieStepFor(a, b), a, b);
      TieStepFor(a2, b2).TieUp? == TieStepFor(a, b).Untie? &&
      After(TieStepFor(a2, b2), a2, b2) == (a, b)
  {
  }

  /** Exactly the four listed tie patterns tie, and exactly the four listed untie patterns untie. */
  lemma TieStepCases(a: Option<TieType>, b: Option<TieType>)
    ensures TieStepFor(a, b).TieUp? <==>
      ((a, b) in {(None, None), (Some(Stop), None), (None, Some(Start)), (Some(Stop), Some(Start))})
    ensures TieStepFor(a, b).Untie? <==>
      ((a, b) in {(Some(Start), Some(Stop)), (Some(Start), Some(Continue)),
                  (Some(Continue), Some(Continue)), (Some(Continue), Some(Stop))})
  {
  }

  // ---------------------------------------------------------------------------
  // Applying a step to two notes of a stream
  // ---------------------------------------------------------------------------

  function WithAfter(e: Element, v: Option<real>): Element
    requires e.kind.Note?
  {
    var n := e.kind.note;
    Element(e.offset, Note(n.(partners := n.partners.(after := v))))
  }

  function WithBefore(e: Element, v: Option<real>): Element
    requires e.kind.Note?
  {
    var n := e.kind.note;
    Element(e.offset, Note(n.(partners := n.partners.(before := v))))
  }

  function WithTie(e: Element, t: Option<TieType>): Element
    requires e.kind.Note?
  {
    var n := e.kind.note;
    Element(e.offset, Note(n.(tie := t)))
  }

  /** Changes only ties and partners: offsets, kinds, pitches and durations stay. */
  predicate SameShape(s: Stream, t: Stream) {
    |s| == |t| &&
    forall i :: 0 <= i < |s| ==>
      s[i].offset == t[i].offset && s[i].kind.Note? == t[i].kind.Note? &&
      (!s[i].kind.Note? ==> s[i] == t[i]) &&
      (s[i].kind.Note? ==> s[i].kind.note.pitch == t[i].kind.note.pitch &&
                           s[i].kind.note.duration == t[i].kind.note.duration &&
                           s[i].kind.note.lyrics == t[i].kind.note.lyrics)
  }

  /** The four assignments of a branch, in the order the source makes them: the first
      note's later partner, the second note's earlier partner, the first note's tie, the
      second note's tie. With k == j both notes are one object and later writes win. */
  function ApplyStep(s: Stream, k: nat, j: nat, step: TieStep): (r: Stream)
    requires k < |s| && j < |s| && s[k].kind.Note? && s[j].kind.Note?
    ensures SameShape(s, r)
    ensures forall i :: 0 <= i < |s| && i != k && i != j ==> r[i] == s[i]
  {
    if step.Keep? then s
    else
      var tying := step.TieUp?;
      var s1 := s[k := WithAfter(s[k], if tying then Some(s[j].offset) else None)];
      var s2 := s1[j := WithBefore(s1[j], if tying then Some(s1[k].offset) else None)];
      var s3 := s2[k := WithTie(s2[k], step.first)];
      s3[j := WithTie(s3[j], step.second)]
  }

  /** `makeTieUpdate([s[k], s[j]])` with the intended table. */
  function MakeTieUpdate(s: Stream, k: nat, j: nat): (r: Stream)
    requires k < |s| && j < |s| && s[k].kind.Note? && s[j].kind.Note?
    ensures SameShape(s, r)
  {
    ApplyStep(s, k, j, TieStepFor(s[k].kind.note.tie, s[j].kind.note.tie))
  }

  /** `makeTieUpdate([s[k], s[j]])` as written. */
  function MakeTieUpdateAsWritten(s: Stream, k: nat, j: nat): (r: Result<Stream>)
    requires k < |s| && j < |s| && s[k].kind.Note? && s[j].kind.Note?
  {
    match TieStepAsWritten(s[k].kind.note.tie, s[j].kind.note.tie)
    case Raise(e) => Raise(e)
    case Ok(step) => Ok(ApplyStep(s, k, j, step))
  }

  /** On two distinct notes a tying step gives the pair the new ties and points them at each
      other; an untying step gives the new ties and clears the links; nothing else changes. */
  lemma ApplyStepEffect(s: Stream, k: nat, j: nat, step: TieStep)
    requires k < |s| && j < |s| && k != j && s[k].kind.Note? && s[j].kind.Note?
    requires !step.Keep?
    ensures var r := ApplyStep(s, k, j, step);
      var tying := step.TieUp?;
      r[k].kind.note.tie == step.first && r[j].kind.note.tie == step.second &&
      r[k].kind.note.partners == s[k].kind.note.partners.(after := if tying then Some(s[j].offset) else None) &&
      r[j].kind.note.partners == s[j].kind.note.partners.(before := if tying then Some(s[k].offset) else None)
  {
  }

  /** Tying two distinct, unlinked notes and then untying them restores the stream, and so
      does untying a linked pair and tying it again. */
  lemma {:induction false} MakeTieUpdateTwice(s: Stream, k: nat, j: nat)
    requires k < |s| && j < |s| && k != j && s[k].kind.Note? && s[j].kind.Note?
    requires !TieStepFor(s[k].kind.note.tie, s[j].kind.note.tie).Keep?
    requires TieStepFor(s[k].kind.note.tie, s[j].kind.note.tie).TieUp? ==>
      s[k].kind.note.partners.after.None? && s[j].kind.note.partners.before.None?
    requires TieStepFor(s[k].kind.note.tie, s[j].kind.note.tie).Untie? ==>
      s[k].kind.note.partners.after == Some(s[j].offset) && s[j].kind.note.partners.before == Some(s[k].offset)
    ensures MakeTieUpdate(MakeTieUpdate(s, k, j), k, j) == s
  {
    var a, b := s[k].kind.note.tie, s[j].kind.note.tie;
    var r := MakeTieUpdate(s, k, j);
    ApplyStepEffect(s, k, j, TieStepFor(a, b));
    TieStepInverse(a, b);
    var step2 := TieStepFor(r[k].kind.note.tie, r[j].kind.note.tie);
    ApplyStepEffect(r, k, j, step2);
    var t := MakeTieUpdate(r, k, j);
    forall i | 0 <= i < |s| ensures t[i] == s[i] {
      if i == k || i == j {
        assert t[i].kind.note == s[i].kind.note;
      }
    }
  }

  // ---------------------------------------------------------------------------
  // updateTieStatus
  // ---------------------------------------------------------------------------

  /** The candidate loop: every element from index j on that sits at `target` must be a note
      (reading `.pitch` of anything else raises AttributeError), and each one named `name`
      is passed with s[k] to `update`. */
  function TieCandidates(s: Stream, k: nat, target: real, name: string, j: nat, written: bool): (r: Result<Stream>)
    requires k < |s| && j <= |s| && s[k].kind.Note?
    ensures r.Ok? ==> SameShape(s, r.value)
    decreases |s| - j
  {
    if j == |s| then Ok(s)
    else if s[j].offset != target then TieCandidates(s, k, target, name, j + 1, written)
    else if !s[j].kind.Note? then Raise(AttributeError)
    else if NameWithOctave(s[j].kind.note.pitch) != name then TieCandidates(s, k, target, name, j + 1, written)
    else
      var u := if written then MakeTieUpdateAsWritten(s, k, j) else Ok(MakeTieUpdate(s, k, j));
      match u
      case Raise(e) => Raise(e)
      case Ok(s2) =>
        SameShapeNotes(s, s2, k);
        var r := TieCandidates(s2, k, target, name, j + 1, written);
        if r.Ok? then SameShapeTrans(s, s2, r.value); r else r
  }

  lemma SameShapeNotes(s: Stream, t: Stream, k: nat)
    requires SameShape(s, t) && k < |s| && s[k].kind.Note?
    ensures k < |t| && t[k].kind.Note?
  {
  }

  lemma SameShapeTrans(s: Stream, t: Stream, u: Stream)
    requires SameShape(s, t) && SameShape(t, u)
    ensures SameShape(s, u)
  {
  }

  /** `updateTieStatus(offset, part, name)`: the first note at offset named `name` is updated
      with every same-named note that starts where it ends; with no such first note nothing
      happens. `written` selects the table as written instead of the intended one. */
  function UpdateTieStatus(s: Stream, offset: real, name: string, written: bool): (r: Result<Stream>)
    ensures r.Ok? ==> SameShape(s, r.value)
    ensures FirstMatch(s, NoteNamedAt(offset, name), 0).None? ==> r == Ok(s)
  {
    match FirstMatch(s, NoteNamedAt(offset, name), 0)
    case None => Ok(s)
    case Some(k) => TieCandidates(s, k, offset + s[k].kind.note.duration, name, 0, written)
  }

  /** The loop of `updateTieStatus` over the candidates, proved against its specification. */
  method UpdateTieStatusLoop(s: Stream, offset: real, name: string) returns (r: Result<Stream>)
    ensures r == UpdateTieStatus(s, offset, name, false)
  {
    var found := FindFirst(s, NoteNamedAt(offset, name), 0);
    if found.None? {
      return Ok(s);
    }
    var k := found.value;
    var target := offset + s[k].kind.note.duration;
    var cur := s;
    var j := 0;
    while j < |cur|
      invariant SameShape(s, cur) && j <= |cur|
      invariant TieCandidates(s, k, target, name, 0, false) == TieCandidates(cur, k, target, name, j, false)
      decreases |cur| - j
    {
      if cur[j].offset == target {
        if !cur[j].kind.Note? {
          return Raise(AttributeError);
        }
        if NameWithOctave(cur[j].kind.note.pitch) == name {
          var next := MakeTieUpdate(cur, k, j);
          SameShapeTrans(s, cur, next);
          cur := next;
        }
      }
      j := j + 1;
    }
    return Ok(cur);
  }

  /** When no element shares the later offset, updateTieStatus changes nothing. */
  lemma {:induction false} NoCandidatesNoChange(s: Stream, k: nat, target: real, name: string, j: nat, written: bool)
    requires k < |s| && j <= |s| && s[k].kind.Note?
    requires forall i :: j <= i < |s| ==> s[i].offset != target
    ensures TieCandidates(s, k, target, name, j, written) == Ok(s)
    decreases |s| - j
  {
    if j < |s| {
      NoCandidatesNoChange(s, k, target, name, j + 1, written);
    }
  }
}
