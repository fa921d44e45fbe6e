/** The later edit dispatcher of composte/util/musicWrapper.py. It shares its name table,
    argument casts and offset check with util/musicWrapper.py, but answers chat before the
    table is consulted and refuses a note whose length is not one of the legal lengths. */
module ComposteMusicWrapper {
  import opened Outcomes
  import opened PyCore
  import opened MusicWrapper

  /** The note lengths in quarter lengths the editor can draw, from a whole note down to a
      sixteenth, dotted values included. */
  const LegalLengths: seq<real> := [4.0, 3.0, 2.0, 1.5, 1.0, 0.75, 0.5, 0.375, 0.25]

  /** `performMusicFun(projectID, fname, args, partIndex, offset, fetchProject)`. */
  function PerformMusicFun<R>(fetched: Result<Fetched>, decoded: Result<Value>, fname: string,
                              partIndex: Value, offset: Value, run: MusicCall -> Result<R>): (Result<Reply<R>>, Option<MusicCall>)
  {
    if fetched.Raise? then (Raise(fetched.exc), None)
    else if decoded.Raise? then (Raise(decoded.exc), None)
    else if fname == "chat" then (Ok(OkEmpty), None)
    else match Unpack(fetched.value, fname, decoded.value, partIndex, false)
      case Raise(e) => (Raise(e), None)
      case Ok(None) => (Ok(Failed("INVALID OPERATION")), None)
      case Ok(Some(call)) =>
        match OffsetCheck(offset)
        case Raise(e) => (Raise(e), None)
        case Ok(_) =>
          if call.InsertNote? && call.duration !in LegalLengths then (Ok(Failed("INVALID NOTE LENGTH")), None)
          else (Invoke(call, run), Some(call))
  }

  /** Chat is answered as soon as the project is fetched and the arguments decoded, whatever
      the part index, the offset or the arguments are. */
  lemma ChatAnswersAtOnce<R>(p: Fetched, args: Value, partIndex: Value, offset: Value, run: MusicCall -> Result<R>)
    ensures PerformMusicFun(Ok(p), Ok(args), "chat", partIndex, offset, run) == (Ok(OkEmpty), None)
  {
  }

  /** No chat call reaches a music function here, and a note is inserted only with a legal
      length. */
  lemma CallsAreMusic<R>(fetched: Result<Fetched>, decoded: Result<Value>, fname: string,
                         partIndex: Value, offset: Value, run: MusicCall -> Result<R>)
    ensures var called := PerformMusicFun(fetched, decoded, fname, partIndex, offset, run).1;
      called.Some? ==> !called.value.Chat? && (called.value.InsertNote? ==> called.value.duration in LegalLengths)
  {
    if fetched.Ok? && decoded.Ok? && fname != "chat" {
      var u := Unpack(fetched.value, fname, decoded.value, partIndex, false);
      if u.Ok? && u.value.Some? {
        UnpackNeverChat(fetched.value, fname, decoded.value, partIndex);
      }
    }
  }

  /** Without the chat entry the table never yields the chat call. */
  lemma UnpackNeverChat(p: Fetched, fname: string, args: Value, partIndex: Value)
    requires Unpack(p, fname, args, partIndex, false).Ok? && Unpack(p, fname, args, partIndex, false).value.Some?
    ensures !Unpack(p, fname, args, partIndex, false).value.value.Chat?
  {
    var t := ResolveTarget(p, partIndex).value;
    var op := OpNamed(fname).value;
    assert CallOp(UnpackOp(op, args, t, false).value.value) == op;
  }

  /** An insertNote with a length outside the legal ones fails with "INVALID NOTE LENGTH",
      after the offset has been checked, and inserts nothing. */
  lemma IllegalLength<R>(p: Fetched, args: Value, partIndex: Value, offset: Value, run: MusicCall -> Result<R>)
    requires Unpack(p, "insertNote", args, partIndex, false).Ok?
    requires OffsetCheck(offset).Ok?
    requires FloatAt(args, 3).Ok? && FloatAt(args, 3).value !in LegalLengths
    ensures PerformMusicFun(Ok(p), Ok(args), "insertNote", partIndex, offset, run) == (Ok(Failed("INVALID NOTE LENGTH")), None)
  {
  }

  /** Apart from chat and illegal note lengths, the two dispatchers agree exactly: same
      table, same argument positions, same casts and the same error handling. */
  lemma AgreesWithUtil<R>(fetched: Result<Fetched>, decoded: Result<Value>, fname: string,
                          partIndex: Value, offset: Value, run: MusicCall -> Result<R>)
    requires fname != "chat"
    requires !(fetched.Ok? && decoded.Ok? && fname == "insertNote" && FloatAt(decoded.value, 3).Ok? &&
               FloatAt(decoded.value, 3).value !in LegalLengths)
    ensures PerformMusicFun(fetched, decoded, fname, partIndex, offset, run) ==
            MusicWrapper.PerformMusicFun(fetched, decoded, fname, partIndex, offset, run)
  {
    if fetched.Ok? && decoded.Ok? {
      var p, args := fetched.value, decoded.value;
      UnpackWithoutChat(p, fname, args, partIndex);
      var u := Unpack(p, fname, args, partIndex, false);
      if u.Ok? && u.value.Some? && u.value.value.InsertNote? {
        UnpackInsertNote(p, fname, args, partIndex);
      }
      PerformAgrees(p, args, fname, partIndex, offset, run);
    }
  }

  /** With the same unpacked call and a legal length for any note, the two dispatchers give
      the same outcome. */
  lemma PerformAgrees<R>(p: Fetched, args: Value, fname: string, partIndex: Value, offset: Value, run: MusicCall -> Result<R>)
    requires fname != "chat"
    requires Unpack(p, fname, args, partIndex, false) == Unpack(p, fname, args, partIndex, true)
    requires var u := Unpack(p, fname, args, partIndex, false);
      u.Ok? && u.value.Some? && u.value.value.InsertNote? ==> u.value.value.duration in LegalLengths
    ensures PerformMusicFun(Ok(p), Ok(args), fname, partIndex, offset, run) ==
            MusicWrapper.PerformMusicFun(Ok(p), Ok(args), fname, partIndex, offset, run)
  {
  }

  /** The chat switch matters only to chat. */
  lemma UnpackWithoutChat(p: Fetched, fname: string, args: Value, partIndex: Value)
    requires fname != "chat"
    ensures Unpack(p, fname, args, partIndex, false) == Unpack(p, fname, args, partIndex, true)
  {
    var t := ResolveTarget(p, partIndex);
    if t.Ok? && OpNamed(fname).Some? {
      assert OpName(ChatOp) == "chat";
      UnpackOpWithoutChat(OpNamed(fname).value, args, t.value);
    }
  }

  lemma UnpackOpWithoutChat(op: Op, args: Value, t: Target)
    requires op != ChatOp
    ensures UnpackOp(op, args, t, false) == UnpackOp(op, args, t, true)
  {
  }

  /** A note to insert comes from insertNote, with the length `float(args[3])`. */
  lemma UnpackInsertNote(p: Fetched, fname: string, args: Value, partIndex: Value)
    requires Unpack(p, fname, args, partIndex, false).Ok? && Unpack(p, fname, args, partIndex, false).value.Some?
    requires Unpack(p, fname, args, partIndex, false).value.value.InsertNote?
    ensures fname == "insertNote"
    ensures FloatAt(args, 3) == Ok(Unpack(p, fname, args, partIndex, false).value.value.duration)
  {
    var t := ResolveTarget(p, partIndex).value;
    var op := OpNamed(fname).value;
    assert CallOp(UnpackOp(op, args, t, false).value.value) == op;
    assert op == InsertNoteOp;
  }
}
