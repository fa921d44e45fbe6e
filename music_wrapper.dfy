/** The edit dispatcher of util/musicWrapper.py: `performMusicFun` fetches the project,
    decodes the JSON argument list, picks the target part, maps the operation name to a
    music function with its arguments cast (the inner `unpackFun`), checks the offset
    keyword and calls the function once. The fetch, the JSON decoding and the music
    functions themselves are parameters: `fetched` and `decoded` are what the first two
    produced (or raised), and `run` gives the outcome of calling a music function. */
module MusicWrapper {
  import opened Outcomes
  import opened PyStrings
  import opened PyCore

  /** What `fetchProject(projectID)` returned, as far as the dispatcher looks at it: a
      project with `parts`, or something without that attribute (such as the string a
      failed lookup yields). */
  datatype Fetched = WithParts(partCount: nat) | WithoutParts

  /** The `musicObject`: `project.parts[i]`, or the whole `project.parts`. */
  datatype Target = OnePart(index: nat) | AllParts

  /** A music function together with its cast arguments, as `unpackFun` returns them. */
  datatype MusicCall =
    | ChangeKeySignature(offset: real, target: Target, sharps: int)
    | InsertNote(offset: real, target: Target, pitch: Value, duration: real)
    | RemoveNote(offset: real, target: Target, name: Value)
    | InsertMetronomeMark(offset: real, target: Target, bpm: int)
    | RemoveMetronomeMark(offset: real, target: Target)
    | Transpose(target: Target, semitones: int)
    | InsertClef(offset: real, target: Target, clef: Value)
    | RemoveClef(offset: real, target: Target)
    | InsertMeasures(offset: real, target: Target, count: real)
    | AddInstrument(offset: real, target: Target, instrument: Value)
    | RemoveInstrument(offset: real, target: Target)
    | AddDynamic(offset: real, target: Target, dynamic: Value)
    | RemoveDynamic(offset: real, target: Target)
    | AddLyric(offset: real, target: Target, lyric: Value)
    | Chat

  /** The reply tuple: `("fail", reason)`, `("ok", "")` or `("ok", result)`. */
  datatype Reply<R> = Failed(reason: string) | OkEmpty | OkWith(result: R)

  function Status<R>(r: Reply<R>): string {
    if r.Failed? then "fail" else "ok"
  }

  /** The fourteen music operations the table knows, and chat. */
  datatype Op =
    | ChangeKeySignatureOp | InsertNoteOp | RemoveNoteOp | InsertMetronomeMarkOp
    | RemoveMetronomeMarkOp | TransposeOp | InsertClefOp | RemoveClefOp | InsertMeasuresOp
    | AddInstrumentOp | RemoveInstrumentOp | AddDynamicOp | RemoveDynamicOp | AddLyricOp
    | ChatOp

  /** The name each operation is called by. */
  function OpName(op: Op): string {
    match op
    case ChangeKeySignatureOp => "changeKeySignature"
    case InsertNoteOp => "insertNote"
    case RemoveNoteOp => "removeNote"
    case InsertMetronomeMarkOp => "insertMetronomeMark"
    case RemoveMetronomeMarkOp => "removeMetronomeMark"
    case TransposeOp => "transpose"
    case InsertClefOp => "insertClef"
    case RemoveClefOp => "removeClef"
    case InsertMeasuresOp => "insertMeasures"
    case AddInstrumentOp => "addInstrument"
    case RemoveInstrumentOp => "removeInstrument"
    case AddDynamicOp => "addDynamic"
    case RemoveDynamicOp => "removeDynamic"
    case AddLyricOp => "addLyric"
    case ChatOp => "chat"
  }

  /** The `if fname == ...: elif ...` chain: the operation a name selects, if any. */
  function OpNamed(fname: string): (r: Option<Op>)
    ensures r.Some? ==> OpName(r.value) == fname
  {
    if fname == "changeKeySignature" then Some(ChangeKeySignatureOp)
    else if fname == "insertNote" then Some(InsertNoteOp)
    else if fname == "removeNote" then Some(RemoveNoteOp)
    else if fname == "insertMetronomeMark" then Some(InsertMetronomeMarkOp)
    else if fname == "removeMetronomeMark" then Some(RemoveMetronomeMarkOp)
    else if fname == "transpose" then Some(TransposeOp)
    else if fname == "insertClef" then Some(InsertClefOp)
    else if fname == "removeClef" then Some(RemoveClefOp)
    else if fname == "insertMeasures" then Some(InsertMeasuresOp)
    else if fname == "addInstrument" then Some(AddInstrumentOp)
    else if fname == "removeInstrument" then Some(RemoveInstrumentOp)
    else if fname == "addDynamic" then Some(AddDynamicOp)
    else if fname == "removeDynamic" then Some(RemoveDynamicOp)
    else if fname == "addLyric" then Some(AddLyricOp)
    else if fname == "chat" then Some(ChatOp)
    else None
  }

  /** Every operation is reached by its own name: the names are distinct. */
  lemma OpNamedRoundTrip(op: Op)
    ensures OpNamed(OpName(op)) == Some(op)
  {
  }

  /** A keyword argument that counts as absent: None or the string "None". */
  predicate Unset(v: Value) {
    v == VNone || v == VStr("None")
  }

  /** `args[i]` on the decoded JSON: a list or a string is indexed, anything else is not
      subscriptable. */
  function Item(args: Value, i: nat): (r: Result<Value>)
    ensures args.VList? && i < |args.items| ==> r == Ok(args.items[i])
    ensures args.VList? && i >= |args.items| ==> r == Raise(IndexError)
  {
    match args
    case VList(items) => if i < |items| then Ok(items[i]) else Raise(IndexError)
    case VStr(s) => if i < |s| then Ok(VStr([s[i]])) else Raise(IndexError)
    case _ => Raise(TypeError)
  }

  /** `except ValueError as e: raise GenericError from e`. */
  function Caught<T>(r: Result<T>): (c: Result<T>)
    ensures c.Ok? <==> r.Ok?
    ensures r.Ok? ==> c == r
    ensures r.Raise? ==> c.exc == (if r.exc == ValueError then GenericError else r.exc)
  {
    if r == Raise(ValueError) then Raise(GenericError) else r
  }

  function FloatAt(args: Value, i: nat): Result<real> {
    var v :- Item(args, i);
    Caught(ToFloat(v))
  }

  function IntAt(args: Value, i: nat): Result<int> {
    var v :- Item(args, i);
    Caught(ToInt(v))
  }

  /** The first statement of `unpackFun`: `project.parts[int(partIndex)]` unless partIndex
      is unset, else `project.parts`. The attribute is read before the index is cast, and a
      negative index counts from the end. */
  function ResolveTarget(fetched: Fetched, partIndex: Value): Result<Target> {
    if fetched.WithoutParts? then Raise(AttributeError)
    else if Unset(partIndex) then Ok(AllParts)
    else
      var i :- Caught(ToInt(partIndex));
      match PyIndex(i, fetched.partCount)
      case None => Raise(IndexError)
      case Some(k) => Ok(OnePart(k))
  }

  /** The name table of `unpackFun`, with each argument read and cast left to right. The
      chat entry is present only where `withChat` holds. */
  function UnpackCall(fname: string, args: Value, t: Target, withChat: bool): Result<Option<MusicCall>> {
    match OpNamed(fname)
    case None => Ok(None)
    case Some(op) => UnpackOp(op, args, t, withChat)
  }

  function UnpackOp(op: Op, args: Value, t: Target, withChat: bool): (r: Result<Option<MusicCall>>)
    ensures r.Ok? && r.value.Some? ==> CallOp(r.value.value) == op && TargetOf(r.value.value) == (if op == ChatOp then None else Some(t))
    ensures r == Ok(None) <==> op == ChatOp && !withChat
  {
    match op
    case ChangeKeySignatureOp => var o :- FloatAt(args, 0); var k :- IntAt(args, 2); Ok(Some(ChangeKeySignature(o, t, k)))
    case InsertNoteOp => var o :- FloatAt(args, 0); var p :- Item(args, 2); var d :- FloatAt(args, 3); Ok(Some(InsertNote(o, t, p, d)))
    case RemoveNoteOp => var o :- FloatAt(args, 0); var n :- Item(args, 2); Ok(Some(RemoveNote(o, t, n)))
    case InsertMetronomeMarkOp => var o :- FloatAt(args, 0); var b :- IntAt(args, 1); Ok(Some(InsertMetronomeMark(o, t, b)))
    case RemoveMetronomeMarkOp => var o :- FloatAt(args, 0); Ok(Some(RemoveMetronomeMark(o, t)))
    case TransposeOp => var k :- IntAt(args, 1); Ok(Some(Transpose(t, k)))
    case InsertClefOp => var o :- FloatAt(args, 0); var c :- Item(args, 2); Ok(Some(InsertClef(o, t, c)))
    case RemoveClefOp => var o :- FloatAt(args, 0); Ok(Some(RemoveClef(o, t)))
    case InsertMeasuresOp => var o :- FloatAt(args, 0); var n :- FloatAt(args, 2); Ok(Some(InsertMeasures(o, t, n)))
    case AddInstrumentOp => var o :- FloatAt(args, 0); var i :- Item(args, 2); Ok(Some(AddInstrument(o, t, i)))
    case RemoveInstrumentOp => var o :- FloatAt(args, 0); Ok(Some(RemoveInstrument(o, t)))
    case AddDynamicOp => var o :- FloatAt(args, 0); var d :- Item(args, 2); Ok(Some(AddDynamic(o, t, d)))
    case RemoveDynamicOp => var o :- FloatAt(args, 0); Ok(Some(RemoveDynamic(o, t)))
    case AddLyricOp => var o :- FloatAt(args, 0); var l :- Item(args, 2); Ok(Some(AddLyric(o, t, l)))
    case ChatOp => if withChat then Ok(Some(Chat)) else Ok(None)
  }

  /** `unpackFun(fname, args)`: the target first, then the table. */
  function Unpack(fetched: Fetched, fname: string, args: Value, partIndex: Value, withChat: bool): Result<Option<MusicCall>> {
    var t :- ResolveTarget(fetched, partIndex);
    UnpackCall(fname, args, t, withChat)
  }

  /** `if offset is not None and offset != 'None': if float(offset) < 0.0: raise GenericError`;
      a cast error here is not caught. */
  function OffsetCheck(offset: Value): Result<bool> {
    if Unset(offset) then Ok(true)
    else
      var f :- ToFloat(offset);
      if f < 0.0 then Raise(GenericError) else Ok(true)
  }

  /** The one call of the chosen function. The chat lambda returns ("ok", ""); a music
      function returns a music21 object or a list, never that tuple. Music21Exception
      becomes GenericError and anything else escapes. */
  function Invoke<R>(call: MusicCall, run: MusicCall -> Result<R>): Result<Reply<R>> {
    if call.Chat? then Ok(OkEmpty)
    else match run(call)
      case Raise(e) => if e == Music21Exception then Raise(GenericError) else Raise(e)
      case Ok(r) => Ok(OkWith(r))
  }

  /** `performMusicFun(projectID, fname, args, partIndex, offset, fetchProject)`: the reply
      (or the exception it lets escape) and the call it made, if any. */
  function PerformMusicFun<R>(fetched: Result<Fetched>, decoded: Result<Value>, fname: string,
                              partIndex: Value, offset: Value, run: MusicCall -> Result<R>): (Result<Reply<R>>, Option<MusicCall>)
  {
    if fetched.Raise? then (Raise(fetched.exc), None)
    else if decoded.Raise? then (Raise(decoded.exc), None)
    else match Unpack(fetched.value, fname, decoded.value, partIndex, true)
      case Raise(e) => (Raise(e), None)
      case Ok(None) => (Ok(Failed("INVALID OPERATION")), None)
      case Ok(Some(call)) =>
        match OffsetCheck(offset)
        case Raise(e) => (Raise(e), None)
        case Ok(_) => (Invoke(call, run), Some(call))
  }

  // ---------------------------------------------------------------------------
  // Properties
  // ---------------------------------------------------------------------------

  /** The operation that a call stands for. */
  function CallOp(call: MusicCall): Op {
    match call
    case ChangeKeySignature(_, _, _) => ChangeKeySignatureOp
    case InsertNote(_, _, _, _) => InsertNoteOp
    case RemoveNote(_, _, _) => RemoveNoteOp
    case InsertMetronomeMark(_, _, _) => InsertMetronomeMarkOp
    case RemoveMetronomeMark(_, _) => RemoveMetronomeMarkOp
    case Transpose(_, _) => TransposeOp
    case InsertClef(_, _, _) => InsertClefOp
    case RemoveClef(_, _) => RemoveClefOp
    case InsertMeasures(_, _, _) => InsertMeasuresOp
    case AddInstrument(_, _, _) => AddInstrumentOp
    case RemoveInstrument(_, _) => RemoveInstrumentOp
    case AddDynamic(_, _, _) => AddDynamicOp
    case RemoveDynamic(_, _) => RemoveDynamicOp
    case AddLyric(_, _, _) => AddLyricOp
    case Chat => ChatOp
  }

  function TargetOf(call: MusicCall): Option<Target> {
    if call.Chat? then None else Some(call.target)
  }

  /** A fetch that raises stops everything, whatever the arguments; so does a decoding
      error once the fetch has succeeded: the fetch comes first. */
  lemma FetchComesFirst<R>(fetched: Result<Fetched>, decoded: Result<Value>, fname: string,
                           partIndex: Value, offset: Value, run: MusicCall -> Result<R>)
    ensures fetched.Raise? ==> PerformMusicFun(fetched, decoded, fname, partIndex, offset, run) == (Raise(fetched.exc), None)
    ensures fetched.Ok? && decoded.Raise? ==>
      PerformMusicFun(fetched, decoded, fname, partIndex, offset, run) == (Raise(decoded.exc), None)
  {
  }

  /** An unknown name fails with "INVALID OPERATION" and calls nothing, once the project has
      parts and the part index resolves. */
  lemma UnknownOperation<R>(n: nat, args: Value, fname: string, partIndex: Value, offset: Value, run: MusicCall -> Result<R>)
    requires forall op :: fname != OpName(op)
    requires ResolveTarget(WithParts(n), partIndex).Ok?
    ensures PerformMusicFun(Ok(WithParts(n)), Ok(args), fname, partIndex, offset, run) == (Ok(Failed("INVALID OPERATION")), None)
  {
  }

  /** The call made is of the named operation on `parts[int(partIndex)]`, or on all parts when
      the index is unset; the reply is exactly the outcome of that one call; and when no call
      is made the reply does not depend on the music functions at all. */
  lemma CallsOnce<R>(fetched: Result<Fetched>, decoded: Result<Value>, fname: string,
                     partIndex: Value, offset: Value, run: MusicCall -> Result<R>, other: MusicCall -> Result<R>)
    ensures var (reply, called) := PerformMusicFun(fetched, decoded, fname, partIndex, offset, run);
      (called.Some? ==>
         OpName(CallOp(called.value)) == fname && reply == Invoke(called.value, run) &&
         fetched.Ok? && fetched.value.WithParts? &&
         TargetOf(called.value) == (if called.value.Chat? then None
                                    else if Unset(partIndex) then Some(AllParts)
                                    else Some(OnePart(PyIndex(ToInt(partIndex).value, fetched.value.partCount).value)))) &&
      (called.None? ==> PerformMusicFun(fetched, decoded, fname, partIndex, offset, other) == (reply, None))
  {
  }

  /** A cast that cannot read its argument becomes GenericError: an offset string that is
      not a number, for every operation that takes an offset. */
  lemma BadOffsetArgument<R>(n: nat, items: seq<Value>, op: Op, partIndex: Value, offset: Value, run: MusicCall -> Result<R>)
    requires op != TransposeOp && op != ChatOp
    requires |items| > 0 && items[0].VStr? && ParseFloat(items[0].s).None?
    requires ResolveTarget(WithParts(n), partIndex).Ok?
    ensures PerformMusicFun(Ok(WithParts(n)), Ok(VList(items)), OpName(op), partIndex, offset, run) == (Raise(GenericError), None)
  {
    OpNamedRoundTrip(op);
    var t := ResolveTarget(WithParts(n), partIndex).value;
    assert FloatAt(VList(items), 0) == Raise(GenericError) by {
      CastErrors(items[0]);
    }
    UnpackBadOffset(op, VList(items), t);
  }

  /** Every entry but transpose and chat reads its offset first, so an offset it cannot cast
      stops the entry. */
  lemma UnpackBadOffset(op: Op, args: Value, t: Target)
    requires op != TransposeOp && op != ChatOp
    requires FloatAt(args, 0) == Raise(GenericError)
    ensures UnpackOp(op, args, t, true) == Raise(GenericError)
  {
    match op
    case ChangeKeySignatureOp =>
    case InsertNoteOp =>
    case RemoveNoteOp =>
    case InsertMetronomeMarkOp =>
    case RemoveMetronomeMarkOp =>
    case InsertClefOp =>
    case RemoveClefOp =>
    case InsertMeasuresOp =>
    case AddInstrumentOp =>
    case RemoveInstrumentOp =>
    case AddDynamicOp =>
    case RemoveDynamicOp =>
    case AddLyricOp =>
  }

  /** A negative offset keyword, a number or a numeric string, raises GenericError before
      anything runs; the keyword is checked, not the offset argument of the call. */
  lemma NegativeOffset<R>(fetched: Result<Fetched>, decoded: Result<Value>, fname: string,
                          partIndex: Value, offset: Value, run: MusicCall -> Result<R>)
    requires fetched.Ok? && decoded.Ok?
    requires Unpack(fetched.value, fname, decoded.value, partIndex, true).Ok?
    requires Unpack(fetched.value, fname, decoded.value, partIndex, true).value.Some?
    requires ToFloat(offset).Ok? && ToFloat(offset).value < 0.0 && offset != VStr("None")
    ensures PerformMusicFun(fetched, decoded, fname, partIndex, offset, run) == (Raise(GenericError), None)
  {
  }

  /** The only failure reply is "INVALID OPERATION": every other problem is an exception. */
  lemma OnlyInvalidOperationFails<R>(fetched: Result<Fetched>, decoded: Result<Value>, fname: string,
                                     partIndex: Value, offset: Value, run: MusicCall -> Result<R>)
    ensures var reply := PerformMusicFun(fetched, decoded, fname, partIndex, offset, run).0;
      reply.Ok? && reply.value.Failed? ==> reply.value.reason == "INVALID OPERATION"
  {
  }

  /** An object without `parts` stops every request before any operation is looked up: a
      decoding failure is raised first, and otherwise AttributeError, whatever the name,
      the arguments, the part index and the offset. */
  lemma NoPartsRaises<R>(decoded: Result<Value>, fname: string, partIndex: Value, offset: Value,
                         run: MusicCall -> Result<R>)
    ensures PerformMusicFun(Ok(WithoutParts), decoded, fname, partIndex, offset, run) ==
      (Raise(if decoded.Raise? then decoded.exc else AttributeError), None)
  {
  }

  /** On a project with parts, a chat request with the part index and the offset unset is
      answered ("ok", "") and calls no music function. */
  lemma ChatOnParts<R>(fetched: Fetched, args: Value, run: MusicCall -> Result<R>)
    requires fetched.WithParts?
    ensures PerformMusicFun(Ok(fetched), Ok(args), "chat", VNone, VNone, run) == (Ok(OkEmpty), Some(Chat))
  {
    OpNamedRoundTrip(ChatOp);
    assert Unpack(fetched, "chat", args, VNone, true) == Ok(Some(Chat));
  }

  /** The outcome of the call: Music21Exception turns into GenericError, other exceptions
      pass through, a music function's result is returned as ("ok", result), and only chat
      replies ("ok", ""). */
  lemma InvokeOutcomes<R>(call: MusicCall, run: MusicCall -> Result<R>)
    ensures Invoke(call, run) == Ok(OkEmpty) <==> call.Chat?
    ensures !call.Chat? && run(call) == Raise(Music21Exception) ==> Invoke(call, run) == Raise(GenericError)
    ensures !call.Chat? && run(call).Raise? && run(call).exc != Music21Exception ==> Invoke(call, run) == Raise(run(call).exc)
    ensures !call.Chat? && run(call).Ok? ==> Invoke(call, run) == Ok(OkWith(run(call).value))
  {
  }
}
