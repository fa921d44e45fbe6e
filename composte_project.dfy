/** The project of util/composteProject.py: its metadata, its id and a score of parts. Every
    part carries a `displayIndex`, the position the editor shows it at; swapping parts only
    exchanges display indices, while the parts keep their order in the score. */
module ComposteProject {
  import opened Outcomes
  import opened PyStrings
  import opened PyCore
  import opened Music
  import opened ListOps

  datatype Part = Part(displayIndex: int, stream: Stream)

  /** The measure every new part starts with: a metronome mark of 120 at offset 0. */
  const FirstMeasure: Element := Element(0.0, Measure([Element(0.0, MetronomeMark(120))]))

  function NewPart(displayIndex: int): Part {
    Part(displayIndex, [FirstMeasure])
  }

  /** The display indices are 0 .. n-1, each used by exactly one part. */
  predicate DisplayOrder(ps: seq<Part>) {
    (forall i :: 0 <= i < |ps| ==> 0 <= ps[i].displayIndex < |ps|) &&
    (forall i, j :: 0 <= i < j < |ps| ==> ps[i].displayIndex != ps[j].displayIndex)
  }

  /** The parts after `addPart`: a new part at the end, shown after all the others. */
  function WithPartAdded(ps: seq<Part>): (r: seq<Part>)
    ensures |r| == |ps| + 1 && r[..|ps|] == ps && r[|ps|] == NewPart(|ps|)
  {
    ps + [NewPart(|ps|)]
  }

  /** The parts after the two display indices of parts a and b are exchanged. */
  function SwappedDisplay(ps: seq<Part>, a: nat, b: nat): (r: seq<Part>)
    requires a < |ps| && b < |ps|
  {
    ps[a := ps[a].(displayIndex := ps[b].displayIndex)][b := ps[b].(displayIndex := ps[a].displayIndex)]
  }

  /** Every part shown at `threshold` or later moves one place up. */
  function Decremented(ps: seq<Part>, threshold: int): (r: seq<Part>) {
    seq(|ps|, i requires 0 <= i < |ps| =>
      if threshold <= ps[i].displayIndex then ps[i].(displayIndex := ps[i].displayIndex - 1) else ps[i])
  }

  /** The removal the source writes: the display indices at or after the removed part's
      index in the score, not its display index, move up. */
  function RemovedAsWritten(ps: seq<Part>, k: nat, removeIndex: int): seq<Part>
    requires k < |ps|
  {
    Decremented(DeleteAt(ps, k), removeIndex)
  }

  /** The removal that keeps the display order: the parts shown after the removed one move
      up. */
  function Removed(ps: seq<Part>, k: nat): seq<Part>
    requires k < |ps|
  {
    Decremented(DeleteAt(ps, k), ps[k].displayIndex)
  }

  /** `partIndexToDisplayIndex(displayIndex)`: despite its name, the index in the score of the
      first part shown at displayIndex, or the sentinel -1. */
  function FirstWithDisplay(ps: seq<Part>, d: int): (r: int)
    ensures -1 <= r < |ps|
    ensures r == -1 <==> forall i :: 0 <= i < |ps| ==> ps[i].displayIndex != d
    ensures r >= 0 ==> ps[r].displayIndex == d && forall j :: 0 <= j < r ==> ps[j].displayIndex != d
  {
    if ps == [] then -1
    else if ps[0].displayIndex == d then 0
    else
      var r := FirstWithDisplay(ps[1..], d);
      assert forall i :: 1 <= i < |ps| ==> ps[i] == ps[1..][i - 1];
      if r == -1 then -1 else r + 1
  }

  /** `displayIndexToPartIndex(partIndex)`: despite its name, the display index of the part at
      partIndex in the score (negative indices count from the end), or -1 for an index out
      of range. */
  function DisplayIndexToPartIndex(ps: seq<Part>, partIndex: int): (r: int)
    ensures var k := PyIndex(partIndex, |ps|);
      if k.Some? then r == ps[k.value].displayIndex else r == -1
  {
    match PyIndex(partIndex, |ps|)
    case Some(k) => ps[k].displayIndex
    case None => -1
  }

  /** A project without a score shows its one part first. */
  lemma NewProjectOrdered()
    ensures DisplayOrder([NewPart(0)])
  {
  }

  lemma AddPartKeepsOrder(ps: seq<Part>)
    requires DisplayOrder(ps)
    ensures DisplayOrder(WithPartAdded(ps))
  {
  }

  /** A swap changes only the two display indices, keeps the display order, and a second
      swap of the same parts undoes it. */
  lemma SwapFacts(ps: seq<Part>, a: nat, b: nat)
    requires a < |ps| && b < |ps|
    ensures var r := SwappedDisplay(ps, a, b);
      |r| == |ps| && r[a].displayIndex == ps[b].displayIndex && r[b].displayIndex == ps[a].displayIndex &&
      (forall i :: 0 <= i < |ps| ==> r[i].stream == ps[i].stream) &&
      (forall i :: 0 <= i < |ps| && i != a && i != b ==> r[i] == ps[i])
    ensures DisplayOrder(ps) ==> DisplayOrder(SwappedDisplay(ps, a, b))
    ensures SwappedDisplay(SwappedDisplay(ps, a, b), a, b) == ps
  {
  }

  /** Removing a part and moving up the parts shown after it keeps the display order of the
      rest, and keeps the remaining parts in their order in the score. */
  lemma RemoveKeepsOrder(ps: seq<Part>, k: nat)
    requires k < |ps| && DisplayOrder(ps)
    ensures DisplayOrder(Removed(ps, k))
    ensures |Removed(ps, k)| == |ps| - 1
    ensures forall i :: 0 <= i < |ps| - 1 ==> Removed(ps, k)[i].stream == DeleteAt(ps, k)[i].stream
  {
    var d := ps[k].displayIndex;
    var rest := DeleteAt(ps, k);
    RestAvoids(ps, k);
    DecrementedOrder(rest, d, |ps|);
  }

  /** The parts left after a removal have distinct display indices below the old count, none
      of them the removed part's. */
  lemma RestAvoids(ps: seq<Part>, k: nat)
    requires k < |ps| && DisplayOrder(ps)
    ensures var rest := DeleteAt(ps, k);
      (forall i :: 0 <= i < |rest| ==> 0 <= rest[i].displayIndex < |ps| && rest[i].displayIndex != ps[k].displayIndex) &&
      (forall i, j :: 0 <= i < j < |rest| ==> rest[i].displayIndex != rest[j].displayIndex)
  {
    var rest := DeleteAt(ps, k);
    forall i | 0 <= i < |rest|
      ensures 0 <= rest[i].displayIndex < |ps| && rest[i].displayIndex != ps[k].displayIndex
    {
      var i0 := if i < k then i else i + 1;
      assert rest[i] == ps[i0] && i0 != k;
    }
    forall i, j | 0 <= i < j < |rest|
      ensures rest[i].displayIndex != rest[j].displayIndex
    {
      var i0 := if i < k then i else i + 1;
      var j0 := if j < k then j else j + 1;
      assert rest[i] == ps[i0] && rest[j] == ps[j0] && i0 < j0;
    }
  }

  /** Distinct display indices below n that skip d, itself below n, become 0 .. n-2 once
      those above d move up. */
  lemma DecrementedOrder(rest: seq<Part>, d: int, n: nat)
    requires |rest| + 1 == n && 0 <= d < n
    requires forall i :: 0 <= i < |rest| ==> 0 <= rest[i].displayIndex < n && rest[i].displayIndex != d
    requires forall i, j :: 0 <= i < j < |rest| ==> rest[i].displayIndex != rest[j].displayIndex
    ensures DisplayOrder(Decremented(rest, d))
    ensures |Decremented(rest, d)| == |rest|
    ensures forall i :: 0 <= i < |rest| ==> Decremented(rest, d)[i].stream == rest[i].stream
  {
    var r := Decremented(rest, d);
    forall i | 0 <= i < |rest|
      ensures r[i].displayIndex == if d <= rest[i].displayIndex then rest[i].displayIndex - 1 else rest[i].displayIndex
    {
    }
  }

  /** A project whose parts were never swapped shows part i at i; there the source's
      threshold is the removed part's display index, and both removals agree. */
  lemma AsWrittenAgreesUnswapped(ps: seq<Part>, k: nat)
    requires k < |ps|
    requires forall i :: 0 <= i < |ps| ==> ps[i].displayIndex == i
    ensures RemovedAsWritten(ps, k, k) == Removed(ps, k)
  {
  }

  /** Two parts whose display indices were swapped, then removal of part 0: the part left is
      shown at -1. */
  lemma AsWrittenBreaksOrder()
    ensures SwappedDisplay(WithPartAdded([NewPart(0)]), 0, 1) == [NewPart(1), NewPart(0)]
    ensures DisplayOrder([NewPart(1), NewPart(0)])
    ensures RemovedAsWritten([NewPart(1), NewPart(0)], 0, 0) == [NewPart(-1)]
    ensures !DisplayOrder(RemovedAsWritten([NewPart(1), NewPart(0)], 0, 0))
  {
    var ps := [NewPart(1), NewPart(0)];
    assert DeleteAt(ps, 0) == [NewPart(0)];
    assert Decremented([NewPart(0)], 0)[0] == NewPart(-1);
  }

  /** The two conversions undo each other on a project in display order. */
  lemma ConversionsInverse(ps: seq<Part>, p: nat, d: int)
    requires DisplayOrder(ps)
    ensures p < |ps| ==> FirstWithDisplay(ps, DisplayIndexToPartIndex(ps, p)) == p
    ensures FirstWithDisplay(ps, d) != -1 ==> DisplayIndexToPartIndex(ps, FirstWithDisplay(ps, d)) == d
  {
  }

  class Project {
    var metadata: map<string, string>
    var projectID: Uuid
    var parts: seq<Part>

    /** `ComposteProject(metadata, score, projectID)`: a projectID not given is `newID`, the
        fresh `uuid4()`; a project without a score has one part, shown first, holding one
        measure with a metronome mark. */
    constructor (metadata: map<string, string>, score: Option<seq<Part>>, projectID: Option<Uuid>, newID: Uuid)
      ensures this.metadata == metadata
      ensures this.projectID == (if projectID.Some? then projectID.value else newID)
      ensures parts == (if score.Some? then score.value else [NewPart(0)])
    {
      this.metadata := metadata;
      this.projectID := if projectID.Some? then projectID.value else newID;
      parts := if score.Some? then score.value else [NewPart(0)];
    }

    method AddPart()
      modifies this
      ensures parts == WithPartAdded(old(parts))
      ensures metadata == old(metadata) && projectID == old(projectID)
    {
      parts := parts + [NewPart(|parts|)];
    }

    /** `updateMetadata(fieldName, fieldValue)` stores `str(fieldValue)`. */
    method UpdateMetadata(fieldName: string, fieldValue: Value)
      modifies this
      ensures metadata == old(metadata)[fieldName := PyStr(fieldValue)]
      ensures parts == old(parts) && projectID == old(projectID)
    {
      metadata := metadata[fieldName := PyStr(fieldValue)];
    }

    /** `swapParts(first, second)`: the guard only checks both are below the part count, so a
        negative index passes and counts from the end, or raises IndexError when too
        negative; an index at or past the count raises GenericError. Nothing changes on an
        error. */
    method SwapParts(firstPartIndex: int, secondPartIndex: int) returns (r: Result<()>)
      modifies this
      ensures var n := |old(parts)|;
        var a, b := PyIndex(firstPartIndex, n), PyIndex(secondPartIndex, n);
        if !(firstPartIndex < n && secondPartIndex < n) then r == Raise(GenericError) && parts == old(parts)
        else if a.None? || b.None? then r == Raise(IndexError) && parts == old(parts)
        else r == Ok(()) && parts == SwappedDisplay(old(parts), a.value, b.value)
      ensures metadata == old(metadata) && projectID == old(projectID)
    {
      if !(firstPartIndex < |parts| && secondPartIndex < |parts|) {
        return Raise(GenericError);
      }
      var a := PyIndex(firstPartIndex, |parts|);
      var b := PyIndex(secondPartIndex, |parts|);
      if a.None? || b.None? {
        return Raise(IndexError);
      }
      var fst := parts[a.value].displayIndex;
      var snd := parts[b.value].displayIndex;
      parts := parts[a.value := parts[a.value].(displayIndex := snd)];
      parts := parts[b.value := parts[b.value].(displayIndex := fst)];
      r := Ok(());
    }

    /** The loop of `removePart`: every part shown at threshold or later moves up one. */
    method DecrementFrom(threshold: int)
      modifies this
      ensures parts == Decremented(old(parts), threshold)
      ensures metadata == old(metadata) && projectID == old(projectID)
    {
      var i := 0;
      while i < |parts|
        invariant 0 <= i <= |parts| == |old(parts)|
        invariant forall j :: 0 <= j < i ==> parts[j] == Decremented(old(parts), threshold)[j]
        invariant forall j :: i <= j < |parts| ==> parts[j] == old(parts)[j]
        invariant metadata == old(metadata) && projectID == old(projectID)
      {
        if threshold <= parts[i].displayIndex {
          parts := parts[i := parts[i].(displayIndex := parts[i].displayIndex - 1)];
        }
        i := i + 1;
      }
    }

    /** `removePart(removeIndex)` as the source writes it: the threshold of the loop is
        removeIndex itself. An index at or past the count raises GenericError, one too
        negative IndexError, both with nothing changed. */
    method RemovePartAsWritten(removeIndex: int) returns (r: Result<()>)
      modifies this
      ensures var n := |old(parts)|;
        var k := PyIndex(removeIndex, n);
        if removeIndex >= n then r == Raise(GenericError) && parts == old(parts)
        else if k.None? then r == Raise(IndexError) && parts == old(parts)
        else r == Ok(()) && parts == RemovedAsWritten(old(parts), k.value, removeIndex)
      ensures metadata == old(metadata) && projectID == old(projectID)
    {
      if removeIndex >= |parts| {
        return Raise(GenericError);
      }
      var k := PyIndex(removeIndex, |parts|);
      if k.None? {
        return Raise(IndexError);
      }
      parts := DeleteAt(parts, k.value);
      DecrementFrom(removeIndex);
      r := Ok(());
    }

    /** `removePart(removeIndex)` with the parts shown after the removed one moving up, which
        keeps the display order (RemoveKeepsOrder); the errors are the source's. */
    method RemovePart(removeIndex: int) returns (r: Result<()>)
      modifies this
      ensures var n := |old(parts)|;
        var k := PyIndex(removeIndex, n);
        if removeIndex >= n then r == Raise(GenericError) && parts == old(parts)
        else if k.None? then r == Raise(IndexError) && parts == old(parts)
        else r == Ok(()) && parts == Removed(old(parts), k.value)
      ensures metadata == old(metadata) && projectID == old(projectID)
    {
      if removeIndex >= |parts| {
        return Raise(GenericError);
      }
      var k := PyIndex(removeIndex, |parts|);
      if k.None? {
        return Raise(IndexError);
      }
      var shown := parts[k.value].displayIndex;
      parts := DeleteAt(parts, k.value);
      DecrementFrom(shown);
      r := Ok(());
    }

    /** `partIndexToDisplayIndex(displayIndex)`: the search loop. */
    method PartIndexToDisplayIndex(displayIndex: int) returns (r: int)
      ensures r == FirstWithDisplay(parts, displayIndex)
    {
      var i := 0;
      while i < |parts|
        invariant 0 <= i <= |parts|
        invariant forall j :: 0 <= j < i ==> parts[j].displayIndex != displayIndex
      {
        if parts[i].displayIndex == displayIndex {
          return i;
        }
        i := i + 1;
      }
      return -1;
    }

    /** `displayIndexToPartIndex(partIndex)`, with IndexError caught as -1. */
    method DisplayIndexOf(partIndex: int) returns (r: int)
      ensures r == DisplayIndexToPartIndex(parts, partIndex)
    {
      var k := PyIndex(partIndex, |parts|);
      if k.None? {
        return -1;
      }
      return parts[k.value].displayIndex;
    }
  }
}
