/** The server-side project of server/project.py: a list of parts, each a music21 stream, a
    list of subscribers that starts with the owner, and the metadata it was created with. */
module ServerProject {
  import opened Outcomes
  import opened PyStrings
  import opened PyCore
  import opened Music
  import opened ListOps

  class Project {
    var parts: seq<Stream>
    var subscribers: seq<Value>
    var metadata: Value

    /** `Project(owner, metadata)`: one empty part and the owner as the only subscriber. */
    constructor (owner: Value, metadata: Value)
      ensures parts == [[]] && subscribers == [owner] && this.metadata == metadata
    {
      parts := [[]];
      subscribers := [owner];
      this.metadata := metadata;
    }

    method AddPart()
      modifies this
      ensures parts == old(parts) + [[]]
      ensures subscribers == old(subscribers) && metadata == old(metadata)
    {
      parts := parts + [[]];
    }

    /** `swapParts(firstPart, secondPart)`: both indices are read before anything is
        written, so an index out of range raises IndexError with the list unchanged; negative
        indices count from the end. */
    method SwapParts(firstPart: int, secondPart: int) returns (r: Result<()>)
      modifies this
      ensures var a, b := PyIndex(firstPart, |old(parts)|), PyIndex(secondPart, |old(parts)|);
        if a.Some? && b.Some? then r == Ok(()) && parts == SwapAt(old(parts), a.value, b.value)
        else r == Raise(IndexError) && parts == old(parts)
      ensures subscribers == old(subscribers) && metadata == old(metadata)
    {
      var a := PyIndex(firstPart, |parts|);
      if a.None? {
        return Raise(IndexError);
      }
      var tmp := parts[a.value];
      var b := PyIndex(secondPart, |parts|);
      if b.None? {
        return Raise(IndexError);
      }
      parts := parts[a.value := parts[b.value]];
      parts := parts[b.value := tmp];
      r := Ok(());
    }

    /** `removePart(partToRemove)`: `del parts[k]`, with Python's index rules. */
    method RemovePart(partToRemove: int) returns (r: Result<()>)
      modifies this
      ensures var k := PyIndex(partToRemove, |old(parts)|);
        if k.Some? then r == Ok(()) && parts == DeleteAt(old(parts), k.value)
        else r == Raise(IndexError) && parts == old(parts)
      ensures subscribers == old(subscribers) && metadata == old(metadata)
    {
      var k := PyIndex(partToRemove, |parts|);
      if k.None? {
        return Raise(IndexError);
      }
      parts := DeleteAt(parts, k.value);
      r := Ok(());
    }

    method AddSubscriber(user: Value)
      modifies this
      ensures subscribers == old(subscribers) + [user]
      ensures parts == old(parts) && metadata == old(metadata)
    {
      subscribers := subscribers + [user];
    }

    /** `removeSubscriber(user)`: the first occurrence goes; an absent user raises
        ValueError and nothing changes. */
    method RemoveSubscriber(user: Value) returns (r: Result<()>)
      modifies this
      ensures var after := RemoveFirst(old(subscribers), user);
        if after.Some? then r == Ok(()) && subscribers == after.value
        else r == Raise(ValueError) && subscribers == old(subscribers)
      ensures parts == old(parts) && metadata == old(metadata)
    {
      var after := RemoveFirst(subscribers, user);
      if after.None? {
        return Raise(ValueError);
      }
      subscribers := after.value;
      r := Ok(());
    }
  }
}
