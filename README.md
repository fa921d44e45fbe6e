# Composte, modelled in Dafny

Composte is a collaborative music editor. Clients edit a shared score through a server.
The server keeps a reference-counted pool of open projects and a table of subscription
cookies. It hands each `update` request to an edit dispatcher, which applies one
music21 editing function to a part of the project. By design a successful edit is then
broadcast to the other subscribers; as the server's code is written no update ever succeeds
(see "## Findings"), and the model follows the code. The editor draws notes and key signatures, and a small command shell (the REPL)
drives the client.

This project models that core and proves properties of the model:

- `Bookkeeping` (bookkeeping.dfy): the object pool of util/bookkeeping.py, a class whose `get`
  and `put` update one table shared by every pool.
- `ComposteServer` and `EarlyServer` (composte_server.dfy, early_server.dfy): the session table,
  subscription, the update path and the request dispatcher of ComposteServer.py and of its
  earlier form server.py. Each server is a class whose methods are proved against
  functions of the old state.
- `MusicWrapper` and `ComposteMusicWrapper` (music_wrapper.dfy, composte_music_wrapper.dfy): the
  edit dispatcher `performMusicFun` of util/musicWrapper.py and its later form in
  composte/util/musicWrapper.py.
- `Music`, `MusicFuns` and `Ties` (music.dfy, music_funs.dfy, ties.dfy): the editing functions of
  util/musicFuns.py over a stream, which is a sorted sequence of elements. `makeTieUpdate`'s
  decision table is modelled with the `updateTieStatus` search.
- `ComposteProject` and `ServerProject` (composte_project.dfy, server_project.dfy): the part
  lists of util/composteProject.py and server/project.py, as classes. `ListOps`
  (list_ops.dfy) holds the list primitives they use.
- `ReplArgs` and `Repl` (repl_args.dfy, repl.dfy): the argument pipeline, the environment, the
  builtins and the command lookup of util/repl.py.
- `UIKeySignature` and `UINote` (ui_key_signature.dfy, ui_note.dfy): the accidental decision of
  both UIKeySignature.py files and the note-class table of composte/client/gui/UINote.py.
- `Outcomes`, `PyCore` and `PyStrings`: Python's exceptions, values, conversions, UUIDs and
  string primitives, as far as the modelled code relies on them.

Sources of input are parameters of the model:

- the databases and the file system;
- the fresh UUID a cookie or project gets;
- the JSON decoder;
- the music21 functions the dispatcher calls;
- the nested REPL that a backtick substitution runs.

Where the source has a loop, the model has a method with a loop. Each such method is proved
against a function that states its result, and the lemmas about that function state what the
source promises.

Where the documentation and the code disagree, the model follows the code.

- `fromMusic21` is documented to raise RuntimeError for an unsupported key. Its message adds
  a string to a key signature object, so it raises TypeError, and `UIKeySignature.FromMusic21`
  says so.
- `partIndexToDisplayIndex` and `displayIndexToPartIndex` each compute what the other's
  name says. `ComposteProject.FirstWithDisplay` and `ComposteProject.DisplayIndexToPartIndex`
  model what they compute.
- In the earlier server, cookies are UUID objects. A cookie that comes back in string form is
  never found (`EarlyServer.StringCookieNotFound`).
- A backtick typed as a word of its own splits into a backtick and an empty argument.
  `expand_vars` then raises IndexError on `arg[0]`, so that form of substitution never runs
  (`Repl.LoneBacktickRaises`). Substitution is reached only through a backtick attached to
  a word (`ReplArgs.SubPair` states it on the argument list).

## Model

| member | source | states |
|---|---|---|
| Bookkeeping.Checkout | util/bookkeeping.py:13-22 | a checkout stores `tag` and leaves every other tag's entry as it was |
| Bookkeeping.Release | util/bookkeeping.py:24-37 | a release can only remove `tag`; every other entry survives unchanged |
| Bookkeeping.Released | util/bookkeeping.py:24-37 | `put` returns a count exactly when the tag is pooled |
| Bookkeeping.CheckoutEntry | util/bookkeeping.py:16-20 | a miss stores the new object with count 1; a hit keeps the object and adds one to its count |
| Bookkeeping.ReleaseEntry | util/bookkeeping.py:27-35 | an absent tag leaves the table alone; a count above one drops by one; a last checkout deletes the entry |
| Bookkeeping.CountedPreserved | util/bookkeeping.py:13-37 | `get` and `put` both keep every stored count at one or more |
| Bookkeeping.ReleaseUndoesCheckout | util/bookkeeping.py:13-37 | `put` right after `get` restores the table and returns the count `get` left |
| Bookkeeping.CountDown | util/bookkeeping.py:32-37 | the reference sequence of returns n, n-1, ..., 1 |
| Bookkeeping.CheckoutsOfAbsent | util/bookkeeping.py:16-20 | n checkouts of an absent tag construct one object and leave it stored with count n |
| Bookkeeping.ReleasesToAbsent | util/bookkeeping.py:27-37 | n releases of a count-n entry return n down to 1 and leave the tag absent |
| Bookkeeping.BalancedUse | util/bookkeeping.py:13-37 | n checkouts then n releases of an absent tag restore the table, returning n down to 1 |
| Bookkeeping.ObjectTable.constructor | util/bookkeeping.py:8 | the class-level table starts empty |
| Bookkeeping.Pool.constructor | util/bookkeeping.py:10-11 | a new `Pool` shares the one class-level table and changes nothing |
| Bookkeeping.Pool.Get | util/bookkeeping.py:13-22 | the intended `get`: the entry returned and the table left are those of `Checkout`; a failing constructor changes nothing |
| Bookkeeping.Pool.GetAsWritten | util/bookkeeping.py:13-22 | `get` as written: a miss raises NameError and stores nothing |
| Bookkeeping.Pool.Put | util/bookkeeping.py:24-37 | `put` leaves the table of `Release` and returns the count it found, or None |
| Bookkeeping.GetTypo | util/bookkeeping.py:13-17 | the written `get` agrees with the intended one on every hit and raises NameError on every miss |
| Music.AtOffset | util/musicFuns.py:298 | `getElementsByOffset(o)` holds exactly the stream's elements at offset o, all at o |
| Music.AtOffsetAppend | util/musicFuns.py:298 | the elements at an offset of a concatenation are those of each half, in order |
| Music.InsertPos | util/musicFuns.py:304 | `part.insert(o, e)` goes after every element at or before o and before every later one |
| Music.InsertPosBefore | util/musicFuns.py:304 | in a sorted stream everything before the insertion point lies at or before o |
| Music.InsertFacts | util/musicFuns.py:304 | inserting keeps the stream sorted and adds exactly the one element |
| Music.InsertSorted | util/musicFuns.py:304 | inserting keeps the stream sorted |
| Music.RemoveAt | util/musicFuns.py:313 | `part.remove(el)` drops that one element and keeps the others in order |
| Music.RemoveAtSorted | util/musicFuns.py:313 | removing keeps the stream sorted and takes away exactly that element |
| Music.ReplaceSameOffsetSorted | util/musicFuns.py:302 | `part.replace` by an element at the same offset keeps the stream sorted |
| Music.FirstMatch | util/musicFuns.py:300-304 | the first matching index from `from` on: it matches, nothing before it does, and None means nothing matches |
| Music.FirstMatchAgrees | util/musicFuns.py:300-304 | two streams that agree on which elements match have the same first match |
| Music.FindFirst | util/musicFuns.py:300-303 | the `for elem in elems: if ...: return` loop finds `FirstMatch` |
| Ties.TieStepAsWrittenAgrees | util/musicFuns.py:233-282 | where the written table does not raise it agrees with the intended one; it raises AttributeError exactly on an untied first note with a tied second, or a start or continue first note with an untied second; on (None, start) it raises where the intended table ties |
| Ties.TieStepInverse | util/musicFuns.py:238-279 | tying and untying undo each other: a pair a step produced takes the opposite step back to its original ties |
| Ties.TieStepCases | util/musicFuns.py:238-282 | exactly the four "add ties" patterns tie and exactly the four "remove ties" patterns untie; every other pair is left alone |
| Ties.ApplyStep | util/musicFuns.py:240-279 | a branch changes only ties and partners, and only on the two notes of the pair |
| Ties.MakeTieUpdate | util/musicFuns.py:233-282 | `makeTieUpdate` with the intended table changes only ties and partners |
| Ties.ApplyStepEffect | util/musicFuns.py:240-279 | on two distinct notes a tying step sets both ties and links the partner offsets; an untying step sets the ties and clears the links |
| Ties.MakeTieUpdateTwice | util/musicFuns.py:233-282 | calling `makeTieUpdate` twice on a consistently linked pair restores the stream |
| Ties.TieCandidates | util/musicFuns.py:225-230 | the candidate loop changes only ties and partners |
| Ties.SameShapeNotes | util/musicFuns.py:225-230 | a note stays a note when only ties change |
| Ties.SameShapeTrans | util/musicFuns.py:225-230 | changing only ties twice changes only ties |
| Ties.UpdateTieStatus | util/musicFuns.py:214-231 | `updateTieStatus` changes only ties and partners, and does nothing when no note at the offset has the name |
| Ties.UpdateTieStatusLoop | util/musicFuns.py:214-231 | the loops of `updateTieStatus` compute `UpdateTieStatus` with the intended table |
| Ties.NoCandidatesNoChange | util/musicFuns.py:225-230 | when no element starts where the note ends, nothing changes |
| MusicFuns.RenameNote | util/musicFuns.py:67-93 | the intended `renameNote` builds a fresh note: untied, unlinked, no lyrics, with the octave and duration of the old one |
| MusicFuns.LetterSteps | util/musicFuns.py:76-89 | one letter below wraps A to G and one letter above wraps G to A, moving one place round the cycle A..G; each step undoes the other |
| MusicFuns.RespellRoundTrip | util/musicFuns.py:73-92 | in a sharp key "X-" becomes the letter below with "#", in a flat key "X#" becomes the letter above with "-", and the two respellings undo each other; a natural name is kept |
| MusicFuns.RenameNoteTypo | util/musicFuns.py:74-84 | the written `renameNote` agrees with the intended one on every two-character name and raises IndexError on a one-letter name |
| MusicFuns.RenameNotes | util/musicFuns.py:51-65 | with the intended `renameNote`, exactly the notes with start <= offset, and offset <= end when an end is given, are replaced by their renamed notes; every other element stays |
| MusicFuns.RenameAll | util/musicFuns.py:51-65 | the reference renaming of a whole stream, element by element |
| MusicFuns.RenameAllTypo | util/musicFuns.py:51-65 | the written `renameNotes` raises IndexError exactly when a note in range has a one-letter name, and otherwise renames as the intended one |
| MusicFuns.NaturalInRangeCons | util/musicFuns.py:56-65 | a natural note in range is the first element or one of the rest |
| MusicFuns.RenameAllCons | util/musicFuns.py:56-65 | the renaming handles the first element and then the rest |
| MusicFuns.ChangeKeySignatureTypo | util/musicFuns.py:29-49 | the written `changeKeySignature` agrees with the intended one whenever it does not raise |
| MusicFuns.ChangeKeyOnNaturalRaises | util/musicFuns.py:29-49 | a key change on a part holding only a C at the offset raises IndexError as written, where the intended version keeps the C |
| MusicFuns.ChangeKeySignature | util/musicFuns.py:29-49 | the loops of `changeKeySignature`, with the intended `renameNote`, compute `ChangeKeySignatureSpec`: replace a key signature at the offset and rename up to the next one, else insert and rename up to the first later one or to the end |
| MusicFuns.KeySignatureCountAppend | util/musicFuns.py:34 | the key signatures of a concatenation are those of its halves |
| MusicFuns.KeySignatureCountSame | util/musicFuns.py:34 | streams with key signatures in the same places have as many |
| MusicFuns.ChangeKeySignatureFacts | util/musicFuns.py:29-49 | after a key change the stream is sorted, holds the new key signature at the offset, and holds as many key signatures as before when one was replaced and one more when one was inserted |
| MusicFuns.KeyReplaceFacts | util/musicFuns.py:35-42 | the replace branch keeps the stream sorted, holds the new key and keeps the key count |
| MusicFuns.KeyInsertFacts | util/musicFuns.py:43-49 | the insert branch keeps the stream sorted, holds the new key and adds one to the key count |
| MusicFuns.InsertedCount | util/musicFuns.py:43 | inserting a key signature adds one to the key count |
| MusicFuns.RenameKeepsShape | util/musicFuns.py:56-65 | renaming keeps offsets and kinds, never touches anything before the start, and keeps a stream sorted |
| MusicFuns.RemoveNote | util/musicFuns.py:197-212 | with the intended tie table, the loop of `removeNote` computes `RemoveNoteSpec`: the first note at the offset with the name is removed after its tie partners are updated, and the interval is widened to the partners' offsets |
| MusicFuns.RemoveNoteFacts | util/musicFuns.py:197-212 | with no match the part is unchanged and (offset, offset) is returned; an unlinked note is simply removed; a removal keeps the stream sorted; for a linked note exactly one element leaves, the others differ from the original only in ties and partners, and the interval runs from the earlier partner's offset (or offset) to the later partner's offset read after the earlier partner is updated (or offset) |
| MusicFuns.SameShapeSorted | util/musicFuns.py:206-209 | tie updates keep a stream sorted |
| MusicFuns.InsertNote | util/musicFuns.py:173-195 | with the intended tie table, the loop of `insertNote` computes `InsertNoteSpec`: overlapping notes are removed one by one, their intervals join the hull, and the new note is inserted |
| MusicFuns.InsertLoopHull | util/musicFuns.py:179-188 | the hull the loop returns is built from the overlapping notes of the original stream alone, whatever the removals did |
| MusicFuns.HullOfBounds | util/musicFuns.py:184-193 | the hull contains every overlapping interval and each of its ends is an end of one of them |
| MusicFuns.InsertNoteInterval | util/musicFuns.py:176-195 | the interval returned covers the new note and every note it strictly overlapped, and each end is an end of one of those |
| MusicFuns.KeepNonOverlapping | util/musicFuns.py:182 | the reference filter keeps only elements of the stream that do not strictly overlap the new note |
| MusicFuns.KeepAppend | util/musicFuns.py:182 | the filter of a concatenation is the concatenation of the filters |
| MusicFuns.InsertLoopKeeps | util/musicFuns.py:179-188 | without duplicate or linked notes the loop leaves exactly the non-overlapping elements, in order |
| MusicFuns.InsertLoopKeepStep | util/musicFuns.py:179-188 | one iteration of the loop removes exactly the current note when it overlaps and nothing when it does not |
| MusicFuns.InsertLoopDropStep | util/musicFuns.py:179-188 | an overlapping, unlinked note that is the first of its offset and name is the one removeNote takes out, and the loop goes on with the rest of the stream and the note's interval in the hull |
| MusicFuns.InsertLoopRemoves | util/musicFuns.py:182-188 | a successful removal advances the loop with the removed note's interval added to the hull |
| MusicFuns.KeepStep | util/musicFuns.py:182 | filtering one more element appends it exactly when it does not overlap |
| MusicFuns.KeptFirstMatch | util/musicFuns.py:183-203 | the note being removed is the first one `removeNote` finds with its offset and name |
| MusicFuns.FirstMatchFrom | util/musicFuns.py:201-203 | the first match is k when s[k] matches and nothing before it does |
| MusicFuns.FirstMatchSkip | util/musicFuns.py:201-203 | non-matching elements are skipped by the first-match search |
| MusicFuns.InsertNoteContents | util/musicFuns.py:173-195 | without duplicate or linked notes, `insertNote` removes exactly the notes strictly overlapping [offset, offset + duration), keeps everything else in order (touching notes included) and inserts the new untied note |
| MusicFuns.UpsertFacts | util/musicFuns.py:290-305 | after an upsert the new element is the first of its kind at its offset, the stream is sorted, and the elements at every other offset are untouched (likewise `addInstrument` at lines 322-333 and `addDynamic` at lines 344-355) |
| MusicFuns.AtOffsetReplace | util/musicFuns.py:302 | replacing at one offset leaves every other offset's elements unchanged |
| MusicFuns.AtOffsetInsert | util/musicFuns.py:304 | inserting at one offset leaves every other offset's elements unchanged |
| MusicFuns.InsertedFirst | util/musicFuns.py:304 | an element inserted where none of its kind was is the first of its kind there |
| MusicFuns.RemoveTaggedFacts | util/musicFuns.py:307-315 | a removal takes out exactly the first element of its kind at the offset, and removing what an insert added restores the stream (likewise `removeInstrument` at lines 335-342 and `removeDynamic` at lines 357-364) |
| MusicFuns.InsertThenRemove | util/musicFuns.py:307-315 | removing the element just inserted where none of its kind stood at that offset gives back the stream as it was |
| MusicFuns.InsertClef | util/musicFuns.py:290-305 | `insertClef` replaces the first clef at the offset or inserts the new one, and returns the elements now at the offset |
| MusicFuns.RemoveClef | util/musicFuns.py:307-315 | `removeClef` removes the first clef at the offset, and returns the elements now at the offset |
| MusicFuns.AddInstrument | util/musicFuns.py:322-333 | `addInstrument` replaces the first instrument at the offset or inserts the new one, and returns the elements now at the offset |
| MusicFuns.RemoveInstrument | util/musicFuns.py:335-342 | `removeInstrument` removes the first instrument at the offset, and returns the elements now at the offset |
| MusicFuns.AddDynamic | util/musicFuns.py:344-355 | `addDynamic` replaces the first dynamic at the offset or inserts the new one, and returns the elements now at the offset |
| MusicFuns.RemoveDynamic | util/musicFuns.py:357-364 | `removeDynamic` removes the first dynamic at the offset, and returns the elements now at the offset |
| MusicFuns.UpsertLoop | util/musicFuns.py:298-304 | the shared search loop computes `Upsert` |
| MusicFuns.RemoveLoop | util/musicFuns.py:309-315 | the shared search loop computes `RemoveTagged` |
| MusicFuns.AddLyric | util/musicFuns.py:366-373 | the first note at the offset gets the lyric appended and nothing else changes; with no note there nothing changes at all |
| MusicWrapper.OpNamed | util/musicWrapper.py:33-79 | a name selects an operation only when it is that operation's name |
| MusicWrapper.OpNamedRoundTrip | util/musicWrapper.py:33-79 | every one of the fourteen music operations and chat is reached by its own name |
| MusicWrapper.Item | util/musicWrapper.py:34-74 | `args[i]` is the i-th entry of the decoded list and raises IndexError past its end |
| MusicWrapper.Caught | util/musicWrapper.py:80-81 | a ValueError inside `unpackFun` becomes GenericError; any other outcome passes unchanged |
| MusicWrapper.UnpackOp | util/musicWrapper.py:33-79 | a decoded call is of the operation named and on the resolved target; only chat yields no call, and only where the table lacks chat |
| MusicWrapper.FetchComesFirst | util/musicWrapper.py:22-23 | a failing fetch stops everything before decoding, and a failing decode stops everything before dispatch |
| MusicWrapper.UnknownOperation | util/musicWrapper.py:78-86 | once the project has parts and the part index resolves to a part (the cast and the lookup come before the table), a name outside the table replies ("fail", "INVALID OPERATION") and calls no music function |
| MusicWrapper.NoPartsRaises | util/musicWrapper.py:23-32 | on an object without `parts` every request raises, the decoding failure first and AttributeError otherwise, whatever the name, arguments, part index and offset |
| MusicWrapper.ChatOnParts | util/musicWrapper.py:76-100 | on a project with parts, a chat request with part index and offset unset is answered ("ok", "") and calls no music function |
| MusicWrapper.OnlyInvalidOperationFails | util/musicWrapper.py:83-100 | the only failure reply is ("fail", "INVALID OPERATION"); every other problem leaves as an exception |
| MusicWrapper.CallsOnce | util/musicWrapper.py:83-100 | a call made is of the named operation on `parts[int(partIndex)]`, or on all parts when the index is None or "None"; the reply is that one call's outcome; without a call the reply does not depend on the music functions |
| MusicWrapper.BadOffsetArgument | util/musicWrapper.py:34-81 | an offset argument that `float` cannot read raises GenericError, for every operation that takes an offset |
| MusicWrapper.UnpackBadOffset | util/musicWrapper.py:34-81 | every table entry but transpose and chat casts `args[0]` to the offset first, so a failed cast stops the entry with GenericError |
| MusicWrapper.NegativeOffset | util/musicWrapper.py:88-90 | a negative offset keyword raises GenericError before the function runs |
| MusicWrapper.InvokeOutcomes | util/musicWrapper.py:92-100 | only chat replies ("ok", ""); Music21Exception becomes GenericError; other exceptions escape; a result r is replied as ("ok", r) |
| ComposteMusicWrapper.ChatAnswersAtOnce | composte/util/musicWrapper.py:22-24 | chat replies ("ok", "") as soon as the project is fetched and the arguments decoded, whatever the other arguments |
| ComposteMusicWrapper.CallsAreMusic | composte/util/musicWrapper.py:91-100 | no call reaches a chat function, and a note is inserted only with a legal length |
| ComposteMusicWrapper.IllegalLength | composte/util/musicWrapper.py:91-95 | an insertNote whose length is not one of the nine legal lengths replies ("fail", "INVALID NOTE LENGTH") after the offset check and calls nothing |
| ComposteMusicWrapper.AgreesWithUtil | composte/util/musicWrapper.py:14-105 | apart from chat and illegal note lengths, the later dispatcher gives exactly the reply and call of the one in util/musicWrapper.py: same table, argument positions, casts and error handling |
| ComposteMusicWrapper.PerformAgrees | composte/util/musicWrapper.py:14-105 | given the same unpacked call, and a legal length for a note to insert, the two dispatchers give the same reply and call |
| ComposteMusicWrapper.UnpackNeverChat | composte/util/musicWrapper.py:26-82 | the later table has no chat entry, so what it decodes is never the chat call |
| ComposteMusicWrapper.UnpackWithoutChat | composte/util/musicWrapper.py:26-82 | for every name but chat the later table decodes exactly as the earlier one |
| ComposteMusicWrapper.UnpackOpWithoutChat | composte/util/musicWrapper.py:32-76 | each non-chat entry decodes its arguments as in the earlier table |
| ComposteMusicWrapper.UnpackInsertNote | composte/util/musicWrapper.py:35-37 | the length the legal-length guard reads is `float(args[3])` of an insertNote call |
| ComposteServer.ParseCookie | ComposteServer.py:258-270 | `uuid.UUID(cookie)` gives a well-formed UUID, and raises ValueError exactly on a string that does not spell one |
| ComposteServer.LookupCookieCases | ComposteServer.py:256-266 | a non-UUID string gives the not-a-cookie failure, an unknown cookie gives None, and a known cookie gives its stored (user, project) |
| ComposteServer.LookupThenRemove | ComposteServer.py:256-279 | `remove_cookie` of a cookie `cookie_to_session` calls malformed leaves the sessions alone with the not-a-cookie failure, and of one it finds deletes exactly that session with ("ok", "") |
| ComposteServer.RemoveCookieCases | ComposteServer.py:268-279 | a malformed cookie gives the not-a-cookie failure and an unknown one "Who are you", both changing nothing; a known cookie is deleted with every other session kept, and removing it again gives "Who are you" |
| ComposteServer.CookieRoundTrip | ComposteServer.py:245-279 | a cookie handed out and sent back in printed form finds its session, and removing it restores the table from before |
| ComposteServer.CookieParses | ComposteServer.py:250-258 | the printed form of a fresh UUID parses back to that UUID |
| ComposteServer.SubscribeCases | ComposteServer.py:299-308 | a non-contributor gets "You are not a contributor" and nothing changes; a contributor gets ("ok", cookie), exactly one new session and exactly one more checkout of the project, with every other pool entry kept |
| ComposteServer.UnsubscribeRefused | ComposteServer.py:310-325 | an unknown cookie gives "You are not subscribed" and a malformed one the not-a-cookie failure, and neither changes anything |
| ComposteServer.UnsubscribeLeaksPin | ComposteServer.py:316-325 | a known cookie is removed and answered ok, but its `put` under the session's string id adds a checkout and its `remove` under the UUID `projectID` finds nothing, so the pin count rises by one and nothing is written back |
| ComposteServer.UnsubscribedFound | ComposteServer.py:310-325 | once the session is found and removed with "ok", unsubscribe's outcome is that of the pool step on the session's project id |
| ComposteServer.UnpinnedLeaks | ComposteServer.py:320-323 | on a pooled string id, `put` adds one checkout and `remove` under the UUID `projectID` misses, so the count rises by one and nothing is written |
| ComposteServer.UnsubscribeUnpinned | ComposteServer.py:317-321 | when the project is not pooled, the session is removed and then the one-argument constructor lambda raises TypeError, leaving the pool alone |
| ComposteServer.Spread | ComposteServer.py:294 | `*args` spreads a list into its items and a string into its characters |
| ComposteServer.PartsOf | util/musicWrapper.py:29-32 | the dispatcher reads `project.parts`; a ComposteProject and the "Project not found" string have none, so as written every object is seen without parts, and only with the parts read through `score` does a loaded project show its part count |
| ComposteServer.UpdateReply | ComposteServer.py:281-297 | every exception inside `do_update` reaches `except e:`, whose name is unbound, and leaves as NameError |
| ComposteServer.UpdateAsWrittenRaises | ComposteServer.py:281-297 | as written every `do_update` raises NameError, whatever its arguments: they do not spread into three to five items, or the dispatcher meets an object without `parts` |
| ComposteServer.DispatchedUpdateRaises | ComposteServer.py:381-393 | an update request raises out of the handler call with an exception other than GenericError and changes no state |
| ComposteServer.UpdateAlwaysDeveloperError | ComposteServer.py:364-403 | as written every update request is answered "Internal server error (Developer error)", changes no state and so is never broadcast |
| ComposteServer.UpdateReplyFailures | ComposteServer.py:281-297 | with the parts read through `score`, an update answered rather than raising fails only with "INVALID OPERATION" |
| ComposteServer.ScoreUpdateBroadcasts | ComposteServer.py:391-403 | with the parts read through `score`, a chat update on a pooled project is answered ("ok", "") and its answer broadcasts the request |
| ComposteServer.CompareVersions | ComposteServer.py:183-195 | the handshake replies ("ok", "") exactly when the client's version equals the server's, and fails otherwise |
| ComposteServer.AnsweredFacts | ComposteServer.py:391-403 | a handler's outcome always becomes a reply: GenericError gives "Internal server error", any other exception the developer-error reply, a reply passes unchanged; the request is broadcast once exactly when it was an "ok" update |
| ComposteServer.DispatchRefusals | ComposteServer.py:367-397 | a name outside the ten-entry table gives "I don't know what you want me to do" and changes nothing; a request without args, or with the wrong number, raises before any handler runs |
| ComposteServer.HandleErrors | ComposteServer.py:391-397 | an exception from a database-backed handler is answered with the fixed internal-error reply and nothing is broadcast or changed |
| ComposteServer.DispatchUpdate | ComposteServer.py:381-393 | an update request with one argument calls `do_update` as written on it and changes no state |
| ComposteServer.HandledIsAnswered | ComposteServer.py:387-403 | `__handle` is the dispatch followed by the reply mapping |
| ComposteServer.Server.constructor | ComposteServer.py:41-82 | a new server has no sessions, an empty pool and the version it was given |
| ComposteServer.Server.GenerateCookieFor | ComposteServer.py:245-252 | exactly one session `cookie -> (user, project)` is added, under the new UUID, with no freshness check |
| ComposteServer.Server.CookieToSession | ComposteServer.py:256-266 | the lookup returns `LookupCookie` and changes nothing |
| ComposteServer.Server.RemoveCookie | ComposteServer.py:268-279 | the reply and the new session table are `RemovedCookie`'s; nothing else changes |
| ComposteServer.Server.DoSubscribe | ComposteServer.py:299-308 | the reply and new state are `Subscribed`'s, and every pooled count stays at one or more |
| ComposteServer.Server.DoUnsubscribe | ComposteServer.py:310-325 | the reply and new state are `Unsubscribed`'s |
| ComposteServer.Server.Unpin | ComposteServer.py:320-323 | the pool steps of `unsubscribe` leave the state `Unpinned` gives |
| ComposteServer.Server.ReleaseWith | ComposteServer.py:323 | one release, writing the project back when it was the last checkout |
| ComposteServer.Server.GetFun | ComposteServer.py:284-289 | `get_fun` returns the pooled project, or the one read on a miss, and leaves the pool exactly as it was |
| ComposteServer.Server.DoUpdate | ComposteServer.py:281-297 | `do_update` replies `UpdateReply` as written, which always raises NameError, and leaves the whole state unchanged |
| ComposteServer.Server.Handle | ComposteServer.py:364-403 | the reply and new state are `Handled`'s, so an update is answered with the developer-error reply and never broadcast |
| ComposteServer.Server.Dispatch | ComposteServer.py:389-393 | the handler call gives `Dispatched`'s outcome and state |
| EarlyServer.SessionOf | server.py:229-230 | `cookie_to_session` is the bare lookup `self.sessions[cookie]`: it succeeds exactly on a UUID with a session and otherwise raises |
| EarlyServer.StringCookieNotFound | server.py:219-230 | a cookie sent back as a string never finds its session, since the keys are UUID objects; the UUID itself does |
| EarlyServer.EarlySubscribeCases | server.py:253-261 | a contributor gets ("ok", cookie) and exactly one new session with every other session kept; anyone else gets "You are not a contributor" and no session |
| EarlyServer.PerformWithoutFetch | server.py:247 | `performMusicFun(*args)` without a fetchProject always raises |
| EarlyServer.EarlyUpdate | server.py:245-250 | every update raises NameError out of `except e:`, so `do_update` never succeeds |
| EarlyServer.EarlyHandleOutcomes | server.py:282-316 | an update is broadcast every time and answered ("?", "?") without touching the sessions; no other request is broadcast; an unlisted name is answered "Unrecognized command" and changes nothing |
| EarlyServer.EarlyUnsubscribeIsRemoveCookie | server.py:232-265 | unsubscribe is exactly `remove_cookie`: the same reply and the same new session table |
| EarlyServer.EarlyServer.constructor | server.py:46-71 | a new server has no sessions and has broadcast nothing |
| EarlyServer.EarlyServer.GenerateCookieFor | server.py:219-226 | exactly one session is added under the new UUID |
| EarlyServer.EarlyServer.CookieToSession | server.py:229-230 | the lookup returns `SessionOf` and changes nothing |
| EarlyServer.EarlyServer.RemoveCookie | server.py:232-243 | the reply and new session table are `RemovedCookie`'s, as in ComposteServer.py |
| EarlyServer.EarlyServer.Subscribe | server.py:253-261 | the reply and new session table are `EarlySubscribed`'s |
| EarlyServer.EarlyServer.Handle | server.py:282-316 | the reply and new state are `EarlyHandled`'s |
| ComposteProject.WithPartAdded | util/composteProject.py:37-44 | `addPart` appends one part, shown after all the others (display index = old part count), holding one measure with a metronome mark of 120; the old parts are kept as they were |
| ComposteProject.FirstWithDisplay | util/composteProject.py:76-82 | the result is the smallest score index whose part is shown at `displayIndex`, and -1 exactly when no part is shown there |
| ComposteProject.DisplayIndexToPartIndex | util/composteProject.py:84-90 | the result is the display index of the part at `partIndex`, negative indices counting from the end; an index out of range gives -1 |
| ComposteProject.NewProjectOrdered | util/composteProject.py:25-35 | the default score of one part is in display order: its single part is shown first |
| ComposteProject.AddPartKeepsOrder | util/composteProject.py:37-44 | a project whose display indices are 0..n-1, each used once, keeps that property after `addPart` |
| ComposteProject.SwapFacts | util/composteProject.py:50-62 | a swap exchanges exactly the two display indices, keeps every part's music and every third part, keeps the display order, and swapping the same two parts again restores the project |
| ComposteProject.RemoveKeepsOrder | util/composteProject.py:64-74 | removing a part and moving up the parts shown after it leaves n-1 parts in display order 0..n-2, with the remaining parts' music in their score order |
| ComposteProject.RestAvoids | util/composteProject.py:67-69 | once a part is removed from a score in display order, the remaining display indices lie in 0..n-1, are distinct and avoid the removed part's |
| ComposteProject.DecrementedOrder | util/composteProject.py:70-72 | lowering by one every display index above the removed one turns such indices into the display order 0..n-2, keeping each part's music |
| ComposteProject.AsWrittenAgreesUnswapped | util/composteProject.py:64-74 | while part i is shown at i, the source's threshold (the part's score index) equals its display index, and its removal is the order-keeping one |
| ComposteProject.AsWrittenBreaksOrder | util/composteProject.py:50-74 | a two-part project swapped once and then stripped of part 0 leaves one part shown at -1, so the source's `removePart` breaks the display order |
| ComposteProject.ConversionsInverse | util/composteProject.py:76-90 | on a project in display order the two conversions are inverse: score index to display index and back gives the score index, and back again the display index |
| ComposteProject.Project.constructor | util/composteProject.py:12-35 | the project keeps the given metadata; its id is the given one or a fresh one; without a score it has one part shown first holding a metronome mark of 120 |
| ComposteProject.Project.AddPart | util/composteProject.py:37-44 | the parts become `WithPartAdded` of the old ones; metadata and id are unchanged |
| ComposteProject.Project.UpdateMetadata | util/composteProject.py:46-48 | exactly the one field is set, to the value's `str`; parts and id are unchanged |
| ComposteProject.Project.SwapParts | util/composteProject.py:50-62 | an index at or past the part count raises GenericError; a passing index too negative raises IndexError; otherwise the two display indices are exchanged; nothing changes on an error |
| ComposteProject.Project.DecrementFrom | util/composteProject.py:70-72 | the loop moves every part shown at the threshold or later up by one and leaves the others alone |
| ComposteProject.Project.RemovePartAsWritten | util/composteProject.py:64-74 | as written: an index at or past the count raises GenericError, one too negative IndexError; otherwise the part goes and the parts shown at or after the removed part's score index move up |
| ComposteProject.Project.RemovePart | util/composteProject.py:64-74 | corrected: the same errors; otherwise the part goes and the parts shown after the removed part move up, which keeps the display order by `RemoveKeepsOrder` |
| ComposteProject.Project.PartIndexToDisplayIndex | util/composteProject.py:76-82 | the search loop returns `FirstWithDisplay` of the parts and changes nothing |
| ComposteProject.Project.DisplayIndexOf | util/composteProject.py:84-90 | the lookup with IndexError caught returns `DisplayIndexToPartIndex` of the parts |
| ServerProject.Project.constructor | server/project.py:4-10 | a new project has one empty part, the owner as its only subscriber, and the given metadata |
| ServerProject.Project.AddPart | server/project.py:12-14 | one empty part is appended; subscribers and metadata are unchanged |
| ServerProject.Project.SwapParts | server/project.py:16-23 | with both indices in range (negative ones from the end) the two parts are exchanged; otherwise IndexError and nothing changes |
| ServerProject.Project.RemovePart | server/project.py:25-28 | `del parts[k]`: the part at k goes and the rest keep their order; an index out of range raises IndexError and nothing changes |
| ServerProject.Project.AddSubscriber | server/project.py:30-32 | the user is appended to the subscribers; nothing else changes |
| ServerProject.Project.RemoveSubscriber | server/project.py:34-36 | the first occurrence of the user is removed; an absent user raises ValueError and nothing changes |
| ListOps.SwapAt | server/project.py:21-23 | exchanging two positions puts each element at the other's place and keeps every other position and the length |
| ListOps.SwapTwice | server/project.py:21-23 | swapping the same two positions twice restores the list |
| ListOps.SwapPermutes | server/project.py:21-23 | a swap keeps the multiset of elements |
| ListOps.DeleteAt | server/project.py:28 | deleting position k shortens the list by one, keeps the elements before k and shifts the ones after it down |
| ListOps.RemoveFirst | server/project.py:36 | `list.remove(x)` fails exactly when x is absent, and otherwise removes one element |
| ListOps.RemoveFirstCounts | server/project.py:36 | removal takes exactly one copy of x out of the multiset of elements |
| ListOps.RemoveFirstSplits | server/project.py:36 | the copy removed is the first: in a + [x] + b with x not in a the result is a + b |
| ListOps.RemoveAfterAdd | server/project.py:32-36 | removing a subscriber just added to a list not holding it restores the list |
| ReplArgs.MergeArgs | util/repl.py:204-236 | the loop of `merge_args` returns what `Merged` (the recursive reading of the same loop) returns: a None argument gives [], an empty one raises IndexError, and arguments ending in a backslash are joined to the next by a space |
| ReplArgs.MergePlain | util/repl.py:210-236 | arguments that are non-empty and do not end in a backslash pass through `merge_args` unchanged |
| ReplArgs.MergeJoins | util/repl.py:215-230 | an argument ending in a backslash followed by a plain one become one argument: the first without its backslash, a space, the second |
| ReplArgs.MergeNone | util/repl.py:212-213 | a None anywhere after non-empty arguments makes `merge_args` return [], whatever came before |
| ReplArgs.Quoted | util/repl.py:272-283 | `quote` maps each argument on its own, keeping their number and order |
| ReplArgs.Quote | util/repl.py:272-283 | the loop of `quote` returns `Quoted` of its arguments |
| ReplArgs.WordsAppendSpace | util/repl.py:399 | `str.split()` of two strings joined by a space is the words of the first followed by the words of the second |
| ReplArgs.WordsOfQuoted | util/repl.py:279-280 | splitting words joined by an escaped space gives the words back, each but the last ending in a backslash |
| ReplArgs.MergeEscaped | util/repl.py:215-232 | `merge_args` turns such a run of escaped words back into one argument, the words joined by spaces |
| ReplArgs.WordsOfQuotedArgs | util/repl.py:396-399 | re-splitting the line `" ".join(quote(args))` gives, argument by argument, its words escaped |
| ReplArgs.QuoteMergeRoundTrip | util/repl.py:324-410 | for arguments with words and no backslash, quoting, joining, re-splitting and merging gives back each argument with its whitespace normalised to single spaces: a substitution's arguments reach the nested command intact |
| ReplArgs.MergeFlatten | util/repl.py:210-236 | the step of the round trip: `merge_args` of all the escaped word runs yields one argument per run, that argument with its whitespace runs collapsed to single spaces |
| ReplArgs.SplitArgs | util/repl.py:255-270 | the loop of `split_args` returns `SplitAll`, the concatenation of each argument's split |
| ReplArgs.SplitAllOne | util/repl.py:258-268 | `split_args` treats each argument independently: one more argument appends its own split |
| ReplArgs.SplitArgCases | util/repl.py:259-268 | without a backtick an argument is kept; a leading backtick becomes its own argument before the rest; a trailing one after it; a backtick inside a word drops the whole argument |
| ReplArgs.SplitArgMany | util/repl.py:259-268 | an argument with two or more backticks is dropped |
| ReplArgs.SplitNoBackticks | util/repl.py:255-270 | arguments without backticks pass through `split_args` unchanged |
| ReplArgs.LoneBacktick | util/repl.py:259-265 | a backtick on its own splits into a backtick and an empty argument |
| ReplArgs.SplitAllAppend | util/repl.py:255-270 | `split_args` of two lists joined is the join of their splits |
| ReplArgs.Lookup | util/repl.py:135-144 | `get` returns the bound value, or "" for an unbound name |
| ReplArgs.Expanded | util/repl.py:238-253 | `expand_vars` succeeds exactly when no argument is empty, otherwise raises IndexError; it keeps the number of arguments, and replaces `$name` by the variable's value |
| ReplArgs.ExpandVars | util/repl.py:246-253 | the loop of `expand_vars` returns `Expanded` |
| ReplArgs.DoSubReplIfNeeded | util/repl.py:285-348 | the loop of `do_sub_repl_if_needed` returns `Substituted`, the recursive reading of the same loop |
| ReplArgs.SubNoBacktick | util/repl.py:303-343 | arguments without a backtick are copied to the output |
| ReplArgs.SubCollects | util/repl.py:337-341 | inside an open substitution, arguments without a backtick are collected as its arguments |
| ReplArgs.SubPair | util/repl.py:303-348 | one backtick pair with a command is replaced by what the nested REPL returns for `command` and its quoted arguments, the arguments around it kept; an exception of the nested REPL escapes |
| ReplArgs.SubOpensPair | util/repl.py:313-334 | opening a backtick, taking the command, collecting the arguments and closing evaluates the quoted line once and appends its result |
| ReplArgs.SubPrefix | util/repl.py:336-343 | arguments before the first backtick go straight to the output |
| ReplArgs.SubUnmatched | util/repl.py:345-346 | a single backtick raises the REPL's SyntaxError "Unmatched \"`\"" |
| ReplArgs.SubOpenRuns | util/repl.py:337-346 | a substitution still open at the end raises that SyntaxError, whatever it collected |
| ReplArgs.SubEmptyPair | util/repl.py:320-329 | two backticks with nothing between them raise TypeError: the command is still None when joined |
| Repl.Env.constructor | util/repl.py:110-111 | a new environment has no bindings |
| Repl.Env.Set | util/repl.py:113-120 | `set` binds the name to `str(value)`, keeps every other binding and returns the value itself |
| Repl.Env.Unset | util/repl.py:122-133 | a bound name is removed and its value returned; for an unbound name the swallowed KeyError leaves `val` unbound, so UnboundLocalError is raised and nothing changes |
| Repl.Env.Get | util/repl.py:135-144 | `get` returns `Lookup` of the bindings and changes nothing |
| Repl.GetAfterSet | util/repl.py:113-144 | after `set` the name reads `str(value)` and every other name reads as before |
| Repl.GetAfterUnset | util/repl.py:122-144 | after `unset` the name reads "" and every other name reads as before |
| Repl.Bound | util/repl.py:39-40 | ":" is an open bound; anything else is `int()` of it, a ValueError when it is not a numeral |
| Repl.SliceCases | util/repl.py:33-49 | `slice : :` gives the string back; numeral bounds give Python's `s[a:b]`, `s[:b]` and `s[a:]`, which is `s[a..b]` for bounds in range; a bound that is not a numeral raises ValueError |
| Repl.EchoFacts | util/repl.py:92-102 | with `DEBUG` set, `echo` returns its arguments joined by ", ": nothing for no argument, one argument unchanged, two arguments around ", ", in general the lengths plus two per separator |
| Repl.ResolvePrecedence | util/repl.py:434-440 | a callback wins over a builtin of the same name; with a leading backslash a builtin wins; a name known to neither falls back to the default function; a backslashed name never fails; `show_help` (lines 190-199) looks names up in the same order |
| Repl.BackslashSwaps | util/repl.py:434-436 | a leading backslash is the same lookup with callbacks and builtins exchanged, in the loop and in `show_help` (lines 193-195) alike |
| Repl.BeforeComment | util/repl.py:357-388 | the line is cut just before its first "%%": the result is a prefix holding no "%%", and what was cut starts with "%%" |
| Repl.SplitHasEmpty | util/repl.py:255-270 | arguments holding a lone backtick split into a list holding an empty argument |
| Repl.LoneBacktickRaises | util/repl.py:399-415 | a line whose arguments hold a backtick as a word of its own makes `expand_vars` raise IndexError on the empty argument, so no substitution is ever run for it |
| Repl.PlainLine | util/repl.py:399-445 | a line whose arguments hold no trailing backslash, backtick or leading "$" runs the resolved command with the arguments as typed |
| Repl.ExpandPlain | util/repl.py:246-253 | arguments not starting with "$" pass through `expand_vars` unchanged |
| UIKeySignature.AccidentalMarkIsNeeded | composte/client/gui/UIKeySignature.py:22-46 | corrected: for a key with sharps or flats but not both, a natural, sharp or flat note gets a mark exactly when its alteration differs from the key's, and the mark is its own alteration; any other accidental raises RuntimeError naming it; the older client/gui/UIKeySignature.py, lines 13-34, has the same code |
| UIKeySignature.AsWrittenMarksFlatsNatural | composte/client/gui/UIKeySignature.py:28-30 | as written, `A and B or C` groups as `(A and B) or C`: every note on a step the key flattens is marked natural, a B flat in F major included, where no mark is needed; the older client/gui/UIKeySignature.py has the same grouping at lines 16-18 |
| UIKeySignature.AsWrittenFlatAlwaysMarked | composte/client/gui/UIKeySignature.py:28-42 | as written, a flat note is never left unmarked: natural on a flattened step, flat elsewhere, so the branch at lines 39-40 cannot be reached |
| UIKeySignature.AsWrittenAgreesElsewhere | composte/client/gui/UIKeySignature.py:28-46 | the source and the corrected decision agree on every natural note and on every note whose step the key does not flatten |
| UIKeySignature.KeyTables | composte/client/gui/UIKeySignature.py:53-64 | every key has sharps or flats, never both, and they are the first ones of the order of sharps F C G D A or of flats B E A D G, as many as the key's count; the older client/gui/UIKeySignature.py has the same tables at lines 41-52 |
| UIKeySignature.FromMusic21 | composte/client/gui/UIKeySignature.py:67-78 | 0 sharps gives C major and 1 sharp G major, the keys with that count; any other key raises TypeError, since the message adds a string to a key signature object |
| UIKeySignature.Str | composte/client/gui/UIKeySignature.py:48-49 | `__str__` is "UIKeySignature<", then the key's name, then ">" |
| UINote.NtypeMatchesDuration | composte/client/gui/UINote.py:18-38 | the lookup succeeds exactly on whole, half, quarter, eighth and 16th without a dot, or with one dot for all but whole; the class it returns lasts the duration's length, half as long again when dotted; anything else raises RuntimeError naming the duration |
| UINote.DottedLength | composte/client/gui/UINote.py:173-359 | each dotted class lasts 1.5 times its parent class; the undotted classes are those of lengths 4, 2, 1, 1/2 and 1/4 |
| UINote.LengthsAreLegal | composte/client/gui/UINote.py:68-73 | every note class's `length()` is one the server accepts for an inserted note (composte/util/musicWrapper.py, line 92), every accepted length belongs to a class, and no two classes share a length |
| UINote.YOffset | composte/client/gui/UINote.py:65-66 | a note at staff position 8 is drawn at offset 0 |
| UINote.YOffsetStep | composte/client/gui/UINote.py:65-66 | the offsets of two positions differ by their distance in positions times the line separation, higher positions being drawn higher |
| PyCore.ParseUuid | ComposteServer.py:258-270 | `uuid.UUID(s)` accepts a string only when it carries 32 hexadecimal digits once braces and hyphens are dropped, and then gives a valid UUID |
| PyCore.UuidRoundTrip | ComposteServer.py:245-270 | the string form of a cookie, bare or in braces, parses back to the same UUID |
| PyCore.CastErrors | util/musicWrapper.py:30-50 | `float()` of a string that is not a finite decimal raises ValueError and of None, a list or a UUID TypeError; `int()` of None or a list raises TypeError; both are exact on an int |
| PyCore.IntForms | util/musicWrapper.py:30-50 | `int()` reads surrounding whitespace, a sign, leading zeros and single underscores between digits: " 1_000 " is 1000 and "-07" is -7 |
| PyCore.IntRefusals | util/musicWrapper.py:30-50 | `int()` refuses a doubled, a leading and a trailing underscore |
| PyCore.DecimalForms | util/musicWrapper.py:30-50 | an exponent of either sign scales the mantissa ("1e3" is 1000 and "2E-1" is 0.2), underscores group digits ("1_0.5" is 10.5), and a mantissa or exponent without digits is refused |
| PyCore.PlainDecimal | util/musicWrapper.py:30-50 | `float()` of a string with no surrounding whitespace and no sign is its unsigned decimal |
| PyStrings.PyIndex | util/composteProject.py:57-60 | Python indexing accepts exactly the indices -n..n-1, a negative one counting from the end |
| PyStrings.PySliceFacts | util/repl.py:42-49 | `s[:]` is `s`; a slice with bounds in range is that subsequence; `s[-k:]` is the last k elements; a slice whose stop is before its start is empty |

## Left out

- music21 itself: `transpose`, `insertMeasures`, `changeTimeSignature`, `createNote`, `insertMetronomeMark`/`removeMetronomeMark`, `playback` and `boundedOffset` are calls into a library whose code is not part of this model. The dispatchers take their outcome as the parameter `run`.
- In-place mutation in the music functions: each such function returns the new stream instead of changing its argument. It is a model on values, so changes made before an exception and aliasing between streams are not captured.
- JSON encoding and decoding, Unicode (PyStrings.IsSpace is space, \t, \n, \r, \v and \f only, while Python's `split()`, `strip()` and `int()` also take \x1c-\x1f and the Unicode spaces as whitespace, and only ASCII digits are read), float formatting (`repr`) and Python's equality across numeric types: decoded requests are `PyCore.Value`s, and the decoder is a parameter. `PyCore.Value` has no case for a JSON object, so a dict among the decoded arguments cannot be represented.
- Networking, threads and locks, the timer, the databases, the file system, authentication, and `serialize`/`deserializeProject`: they are I/O, and their answers are parameters. The contributor query and the project read (`World.contributors`, `World.loaded`) cannot fail in the model, so an exception from them, such as `project_entry.id` on a missing entry in `get_project` (ComposteServer.py:161), is not expressed.
- The music functions are taken never to return ("ok", ""). On that result the dispatcher's reply would be ("ok", "") either way.
- `bookkeeping.ProjectPool` is not part of this model. Its `put` and `remove` calls in ComposteServer.py are modelled as a checkout and a release on a `Pool`-like table, assuming that `put` returns the object itself rather than `Pool.get`'s (object, count) pair, that it calls its constructor with no arguments on a miss, that `remove` runs its write-back only on the last release, and that `remove` of an absent key does nothing.
- A non-string operation name is taken as "", so it selects no operation.
- In `removePart`, music21's `parts` is taken to reflect the removal inside the loop, as it does for a Python list.
- `int()` of an index that is not an int (a float, or a numeric string) is not modelled for part indices in util/composteProject.py; an int is assumed.
- Metadata keys of util/composteProject.py are strings.
- The nested REPL of a substitution is the parameter `eval`, evaluating one line to a string or an exception, with a fresh environment as the source gives it. The source returns `res` (util/repl.py:377,445,456): None after `help`, `Stop-REPL`, a caught error or the default function, and whatever a callback returns otherwise. Non-string results of a substitution are not modelled.
- `_export`, `_import` and `_sleep` (files and the clock), the `input()` loop and the printing done by `show_help`, `last` and the loop are left out; the model says which action a line leads to (`Repl.LineAction`).
- `lstrip()` of a typed line is left out: it does not change the line's words.
- The Qt painting of UINote and UIKeySignature, and their members other than those named in the table above, are GUI code.
- `sendAllParts` and `sendObjectsAtPartOffset` of server/project.py are left out. The first reads a name `project` that is not defined. The second has no `self`, so a call on a project binds the project as its offset; all it does is print. Neither changes the project.
- PyCore.ParseUuid: the `urn:uuid:` prefix and the other spellings `uuid.UUID` accepts are left out; only the 32 hex digits with optional braces and hyphens are modelled.
- PyCore.ParseFloat: "inf", "infinity" and "nan" (any case, with a sign) are read by Python as non-finite floats; the model has no such values and refuses them, so PyCore.CastErrors and MusicWrapper.BadOffsetArgument count them as unreadable. The value is the exact decimal, without rounding to a double or overflow to infinity.
- Music.InsertPos: among elements at the same offset the new one goes last, in insertion order only; music21's `priority` and class sort order are not modelled, which matters for where `InsertClef`, `AddInstrument`, `AddDynamic` and a key change place an object beside others at its offset.
- MusicFuns.RenameNotes and MusicFuns.ChangeKeySignature use the intended `renameNote`, which keeps a natural name. As written, the first natural note in range raises IndexError after the key signature was put in place; that outcome is `MusicFuns.ChangeKeySignatureAsWritten`, related to the intended one by `MusicFuns.ChangeKeySignatureTypo`.
- MusicFuns.RemoveNote and MusicFuns.InsertNote (through `removeNote`) use the intended tie table of `makeTieUpdate`. As written, the table raises AttributeError on a pair whose first note is untied and whose second is tied, and on a pair whose first note starts or continues a tie and whose second is untied (`Ties.TieStepAsWrittenAgrees`); a removal that meets such a pair among the tie candidates raises there instead of completing.
- UINote.YOffset: the clef's `position` is a parameter, since UIClef is not part of this model.

## Findings

| source | as written | input that shows it | evidently intended | confidence | as-written member | corrected member |
|---|---|---|---|---|---|---|
| util/bookkeeping.py:13-17 | the parameter is spelled `contructor` but the body calls `constructor`, so every miss raises NameError | `get` of a tag not in the pool | a miss builds the object once and stores it with count 1 | high, not executed | Bookkeeping.Pool.GetAsWritten | Bookkeeping.Pool.Get |
| util/musicFuns.py:244-249 | the `stop`/None branch reads `firstNote.tie.type` before the None/`start` branch is reached, so a first note without a tie and a tied second raise AttributeError | an untied note followed by a note whose tie is `start` | the pair is tied: (start, continue) | high, not executed | Ties.TieStepAsWrittenAgrees | Ties.TieStepCases |
| util/musicWrapper.py:29-32 | the dispatcher reads `project.parts`, but `get_fun` hands it a ComposteProject, which keeps its parts under `score`; every update raises AttributeError, `except e:` turns that into NameError, and the request is answered "Internal server error (Developer error)" and never broadcast | any `update` request, such as a chat on a pooled project | the parts of the project's score are read (`project.score.parts`), so a chat is answered ("ok", "") and broadcast | high, not executed | ComposteServer.UpdateAlwaysDeveloperError | ComposteServer.ScoreUpdateBroadcasts |
| util/musicFuns.py:29-49 | `changeKeySignature` renames through the written `renameNote`, so a key change over a natural note raises IndexError once the key signature is in place | a key change at the offset of a part holding only a C | the C is kept and the key signature added | high, not executed | MusicFuns.ChangeKeyOnNaturalRaises | MusicFuns.ChangeKeySignatureFacts |
| util/musicFuns.py:74,84 | `name[1]` is read on every note name, so a natural note such as "C" raises IndexError | `renameNote` of a C in any key | a name without an accidental is kept | high, not executed | MusicFuns.RenameNoteTypo | MusicFuns.RenameNote |
| util/composteProject.py:67-72 | the parts shown at or after the removed part's score index move up, not those shown after the removed part | two parts swapped once (display 1, 0), then `removePart(0)`: the part left is shown at -1 | the parts shown after the removed one move up, so display indices stay 0..n-1 | high, not executed | ComposteProject.AsWrittenBreaksOrder | ComposteProject.RemoveKeepsOrder |
| composte/client/gui/UIKeySignature.py:28-29 | `A and B or C` groups as `(A and B) or C`: every note on a step the key flattens is marked natural | a B flat in F major | no mark, since the key already flattens B | high, not executed | UIKeySignature.AsWrittenMarksFlatsNatural | UIKeySignature.AccidentalMarkIsNeeded |
