# Verified models of protocols, codecs and queues

A Dafny model of the parts of the server whose correctness depends on state: a lock-free slot
pool, a multi-producer ring, an incremental WebSocket decoder, a job queue with retries, the
Redis queue scripts, an event-driven JSON filler, a JSON printer, and string splitting and
percent-decoding. `dafny verify dfyconfig.toml` checks everything.

Code shared by threads is a transition system with one step per atomic operation (or per Redis
command) and a program counter per thread; theorems about it hold for every sequence of
possible actions, that is for every interleaving. Code that works by changing variables is also
a class or a method with the same branches and loops, proved against a specification function,
and the theorems are about that function.

| file | models |
|---|---|
| `Prelude.dfy` | what several modules share |
| `BorrowPool.dfy` | the slot allocator: steps of any number of threads, ownership, the lagging counter, the stale hint, leaked slots |
| `CircleMTIO.dfy` | the ring: claims, publication, reading and freeing in any order |
| `CircleMTIOLimits.dfy` | which limits on its use keep the ring safe, for every size: exactly these |
| `WebSocketFrame.dfy` | the frame record and the byte-driven decoder |
| `WebSocketFraming.dfy` | the framing of RFC 6455, sections 5.2 and 5.3, as an encoder, and its inversion by the decoder |
| `WebSocketHandler.dfy` | the input loop as written, and streams cut into chunks |
| `WebSocketOutcome.dfy` | when the input loop comes out right, read in order or not |
| `StructParser.dfy` | the stack machine over JSON events, and the recursion over the tree it computes |
| `Rfc8259.dfy` | JSON trees and a reference parser for the grammar of RFC 8259 |
| `PocoJsonStringify.dfy` | the JSON printer |
| `Strutils.dfy` | join, explode and percent-decoding (section 2.1 of RFC 3986) |
| `SortedSet.dfy` | the sorted set of Redis |
| `LuaScripts.dfy` | the queue scripts, and runs of them |
| `JobWork.dfy` | one execution of a job |
| `JobQueue.dfy`, `JobQueueRuns.dfy` | any number of workers and pushers on one Redis queue, and what holds of every run |
| `JobQueueOrder.dfy` | in what order and when the jobs of that queue are taken |
| `StdQueue.dfy`, `QueueWorker.dfy` | the queue in memory and the worker as classes |
| `QueueDrain.dfy` | when a queue in memory drains, and which of its jobs are never run |
| `QueueRefinement.dfy` | that one call of the worker is a run of the protocol |
| `QueueOperations.dfy` | that any sequence of pushes and calls of one thread is a run of the protocol, and what it tells |

## What was found

Places where the code does not do what one would expect of it. Each has a lemma with a concrete
input or run, named first, and a lemma with the condition under which the code is right, named
second. The condition is exact, except for empty keys in schemas that are not all maps, where it
goes one way, and for the outcome of the input loop in the two cases named there.

- The input loop of the WebSocket handler keeps the length of the last frame where an absolute
  offset is needed. Two three-byte frames in one call make it deliver the second one for ever
  (`TwoSmallFramesNeverReturn`). It reads its buffer once, in order, if and only if at most one
  frame completes in the call (`ReadsInOrderIffAtMostOneFrame`). For a call that begins between
  two frames, on input that fails no assert, that is also exactly when it returns the messages
  and the record it should (`RightIffAtMostOneFrame`). In the middle of a frame (`MidFrameAlike`),
  and on input that fails an assert (`AbortsAlike`), a misread input can come out right, so there
  the condition for the outcome goes one way (`OneFrameReturns`).
- A frame with an empty payload never completes, and the next byte trips an assert
  (`EmptyPayload`). The decoder inverts the framing if and only if the payload is not empty
  (`DecodeInvertsEncode`).
- A ring of any size with as many claims outstanding as slots reads an element twice
  (`FullRingReadsTwice`), and with two claims outstanding refuses a claim if slots are freed out
  of turn (`EarlyFreeIsNotEnough`). A limit on the claims outstanding, or ahead of the oldest one
  not freed, keeps it safe if and only if it is less than the size, and at most one if slots are
  freed in any order (`LimitIsExact`). The only user, `src/utils/CLog.cpp:40-57`, frees in the
  order it reads.
- An empty key makes the struct filler mistake a nested object for the root: in one document
  (`EmptyKeyMisread`) and in every document that has a container under an empty key in a map of
  containers, or in a map in such a map, at any depth (`EmptyKeyAlwaysMisread`). For schemas of
  maps it is right if and only if no object is under an empty key (`MapsFilledIff`). For all
  schemas it is right for documents without empty keys, and for those whose containers start
  under a non-empty current key (`MachineIsRecursion`); with other schemas it may be right for
  more.
- `explode` drops a final separator (`FinalSeparatorLost`); `join` undoes it if and only if the
  separators found from the left do not end at the end of the string (`ExplodeJoins`).
- Lower-case hexadecimal digits are decoded as 0 (`LowerCaseMisread`); decoding inverts
  percent-encoding if and only if there are none (`DecodeInvertsEncoding`).
- A job may report STARTED before QUEUED, because the push calls its callback after the job is
  in the queue (`QueuedCanComeLate`). QUEUED comes first if and only if no worker begins or
  bounces the job before the push announces it (`QueuedFirstIff`).
- A job whose failing run sets `retryAfter` to 0 keeps the delay of an earlier retry
  (`ZeroDoesNotOverride`). The delay of this run counts if and only if it is positive or equal to
  the one before (`JobQueueRuns.NewDelayOverridesIff`).
- The queue in memory never hands out a delayed job: one that is scheduled, or retried with a
  delay, is not run by anything that happens later (`ScheduledNeverRuns`, `DelayedNeverRuns`).
  The jobs it does hand out are exactly those in its list, and none of them has a delay
  (`StdQueue.Pop`, `ProgramDelaysNone`).
- Jobs of an unregistered class, or without a limit, can keep the list from ever becoming empty
  (`UnregisteredNeverDrains`, `StuckForEver`). After a program of one thread calls empty it,
  whatever the jobs do, if and only if every job in it is of a registered class and has a limit
  (`ProgramDrainsIff`).
- The `release` script invents a job that nobody reserved (`ReleaseInvents`); it conserves jobs
  if and only if its job is reserved, or delayed already (`ReleaseConservesIff`).

REMOVED reports one try less than were made, in every run (`CallbacksTellTheStory`).

## Model

| member | source | states |
|---|---|---|
| BorrowPool.PoolSafety | src/utils/BorrowPool.hpp:60-153 | after every interleaving of any number of threads, with objects moved, overwritten by others or by empty ones, and destroyed, no two live objects share a slot, every owned slot has its flag set, the hint is absent or an index, and the counter is the set flags minus those not yet counted plus those cleared and not yet uncounted, so it does not underflow |
| BorrowPool.StepInv | src/utils/BorrowPool.hpp:60-190 | every atomic operation of every thread keeps ranges, exclusive ownership, the accounting of every set flag to an owner or a leak, and the counter equation |
| BorrowPool.RunInv | src/utils/BorrowPool.hpp:60-190 | so does every run |
| BorrowPool.CounterNeverUnderflows | src/utils/BorrowPool.hpp:103 | whoever is about to decrement the counter finds it at least as large as the number of such threads |
| BorrowPool.AssigningLeaks | src/utils/BorrowPool.hpp:60-73 | a step drops a slot exactly if it move-assigns something, or an empty object, over a live one, and then the slot of that one |
| BorrowPool.LeaksAreForever | src/utils/BorrowPool.hpp:60-73 | a dropped slot stays flagged and is never owned again in any later state |
| BorrowPool.ObjectsOfStep | src/utils/BorrowPool.hpp:60-78 | which object has which slot after each step: a move gives the destination the slot of the source and empties the source, and all objects not named keep theirs |
| BorrowPool.ObjectKeepsSlot | src/utils/BorrowPool.hpp:60-73 | through every run of any number of threads an object keeps its slot under the name that moves give it, until it is overwritten or destroyed |
| BorrowPool.BorrowedObjectHasSlot | src/utils/BorrowPool.hpp:158-190 | so a borrowed object has the slot its thread won, wherever it was moved since |
| BorrowPool.BorrowGoesOn | src/utils/BorrowPool.hpp:158-190 | a call of borrow is over only when it delivers an object or times out, whoever else does what |
| BorrowPool.HintOfStep | src/utils/BorrowPool.hpp:101-123 | the hint is taken by the exchange and set by a release to the slot it cleared, and changes nowhere else |
| BorrowPool.ReleasedIsNext | src/utils/BorrowPool.hpp:99-132 | after an undisturbed release the next undisturbed getValidPos gets the released slot |
| BorrowPool.WokenTriesAgain | src/utils/BorrowPool.hpp:162-171 | a waiting thread that is woken tries again, and undisturbed gets a slot exactly if one is free |
| BorrowPool.GetValidPosAlone | src/utils/BorrowPool.hpp:119-153 | the atomic steps of an undisturbed getValidPos add up to taking the hinted slot if free, else the lowest free one, else none |
| BorrowPool.FailsOnlyWhenFull | src/utils/BorrowPool.hpp:119-153 | in any reachable state with no other operation under way getValidPos fails exactly when all flags are set, and succeeds exactly when one is clear |
| BorrowPool.TurnedAwayBySlowReleases | src/utils/BorrowPool.hpp:134-136 | whoever the full test turns away, no more slots are free than releases are late to decrement |
| BorrowPool.Pool.constructor | src/utils/BorrowPool.hpp:192-199 | a new pool is the initial state of the protocol |
| BorrowPool.Pool.CompareExchange | src/utils/BorrowPool.hpp:126 | it wins exactly if the flag was clear, and the flag is set afterwards, the others unchanged |
| BorrowPool.Pool.GetValidPos | src/utils/BorrowPool.hpp:119-153 | its result and its writes are those of the undisturbed protocol thread |
| BorrowPool.Pool.DisownBorrowed | src/utils/BorrowPool.hpp:99-106 | its three writes are the three steps of an undisturbed releasing thread |
| CircleMTIO.RingSafety | src/utils/CircleMTIO.hpp:23-73 | over every interleaving in which claims stay less than a lap ahead of the oldest unfreed one: no claim is refused, two producers never fill one slot, and what the consumer got is what the first claims published, each once and in claim order |
| CircleMTIOLimits.LimitIsExact | src/utils/CircleMTIO.hpp:23-73 | for a ring of every size: every run of any number of producers within a limit on the claims ahead of the oldest unfreed one, or on the claims outstanding, is safe if and only if the limit is less than the size, and at most one if slots are freed in any order |
| CircleMTIOLimits.FreeingInOrder | src/utils/CircleMTIO.hpp:68-71 | a consumer that frees in the order it reads is safe on every run with fewer claims outstanding than slots |
| CircleMTIO.StepInv | src/utils/CircleMTIO.hpp:23-73 | every atomic operation keeps the mutex discipline, the writing point at the slot of the next claim, one owner per claim, the slot states determined by the unfreed claims, and the delivered contents |
| CircleMTIO.RunInv | src/utils/CircleMTIO.hpp:23-73 | so does every run |
| CircleMTIO.SlotsCycle | src/utils/CircleMTIO.hpp:37-73 | a step takes the state of a slot only from 0 to 1, 1 to 2 or 2 to 0 |
| CircleMTIO.CheckSucceeds | src/utils/CircleMTIO.hpp:37-39 | a claim within the bound finds its slot in state 0 |
| CircleMTIO.HeldElementsStay | src/utils/CircleMTIO.hpp:65-71 | an element the consumer got is not overwritten while an older or the same claim is unfreed |
| CircleMTIO.DeliversWhatWasWritten | src/utils/CircleMTIO.hpp:23-73 | what a producer wrote last into its slot before set_ready is what its claim publishes and what next returns for it, whatever all others do in between and afterwards |
| CircleMTIO.BeginsAgain | src/utils/CircleMTIO.hpp:37-39 | a producer that published, or whose claim was refused, can call new_write again |
| CircleMTIO.Freeing | src/utils/CircleMTIO.hpp:68-71 | freeing any slot the consumer has, in any order, keeps the invariant of the slots |
| CircleMTIO.NextSucceedsIffPublished | src/utils/CircleMTIO.hpp:46-66 | an undisturbed next returns the value of the next claim in line exactly when that claim is published, and otherwise changes nothing |
| CircleMTIO.WritingPointAhead | src/utils/CircleMTIO.hpp:53-55 | the test against the writing point never refuses a published element within the bound |
| CircleMTIOLimits.FullRingReadsTwice | src/utils/CircleMTIO.hpp:23-66 | for every size, a run with as many claims outstanding as slots and nothing freed, in which the consumer gets one element more than was claimed, the first one again |
| CircleMTIOLimits.EarlyFreeIsNotEnough | src/utils/CircleMTIO.hpp:23-71 | for every size, a run with never more than two claims outstanding, freed out of turn, that ends in a refused claim |
| CircleMTIO.NewWriteAlone | src/utils/CircleMTIO.hpp:23-44 | the atomic steps of an undisturbed new_write, with the detour through the mutex, add up to claiming the slot at the writing point, or slot 0 past the end |
| CircleMTIO.Ring.constructor | src/utils/CircleMTIO.hpp:75-83 | a new ring is the initial state of the protocol |
| CircleMTIO.Ring.NewWrite | src/utils/CircleMTIO.hpp:23-44 | its result and its writes are those of the undisturbed protocol producer |
| CircleMTIO.Ring.NextElement | src/utils/CircleMTIO.hpp:46-66 | it returns a slot exactly if the slot is ready and is not the writing point, as the five steps of the protocol consumer do |
| CircleMTIO.Ring.SetFreeSlot | src/utils/CircleMTIO.hpp:68-71 | its write is the protocol step that frees this slot |
| CircleMTIO.Ring.SetReadySlot | src/utils/CircleMTIO.hpp:73 | its write is the protocol step that publishes this slot |
| WebSocketFraming.DecodeInvertsEncode | src/WebSocket/WebSocketHandler.cpp:7-96 | for every frame in every length form, masked or not, whatever an earlier frame left in the record: the decoder returns flags and payload and consumes exactly the encoded bytes, if and only if the payload is not empty |
| WebSocketFraming.EmptyPayload | src/WebSocket/WebSocketHandler.cpp:63-71 | a frame without payload is waited for, and any further byte fails the bounds assert |
| WebSocketFraming.ChunkInvariance | src/WebSocket/WebSocketHandler.cpp:14-83 | splitting the input where no frame is complete changes neither state, outcome nor total count; after a completed frame the rest is not touched |
| WebSocketFraming.UniquelyDecodable | src/WebSocket/WebSocketHandler.cpp:7-96 | two frames that can start the same stream are the same, length form and key included, and leave the same rest |
| WebSocketFraming.NonEmptyPayload | src/WebSocket/WebSocketHandler.cpp:7-96 | the inversion for non-empty payloads |
| WebSocketFraming.DecodedIsEncoded | src/WebSocket/WebSocketHandler.cpp:7-96 | whatever an idle decoder completes is the encoding, in some form, of the frame it returns, and exactly that is consumed |
| WebSocketFraming.CompletesIffEncoded | src/WebSocket/WebSocketHandler.cpp:7-96 | an idle decoder completes a frame on exactly the inputs that start with an encoded frame with payload |
| WebSocketFraming.FeedTakes | src/WebSocket/WebSocketHandler.cpp:14-83 | the record tells how many bytes of the current frame were read |
| WebSocketFraming.CompletesIffComplete | src/WebSocket/WebSocketHandler.cpp:7-96 | in plain octets: an idle decoder completes a frame exactly when the header, the key if announced, and as many octets as the length field says, at least one, are there |
| WebSocketFraming.WireFormat | src/WebSocket/WebSocketHandler.cpp:7-96 | what it returns, in plain octets: the first octet as flags, and octet i of the payload as it is, or the exclusive or of it and octet i modulo 4 of the key |
| WebSocketFrame.BitXorBits | src/WebSocket/WebSocketHandler.cpp:91 | masking is exclusive or: a bit of the result is set exactly where those of the two bytes differ |
| WebSocketFrame.Receive | src/WebSocket/WebSocketHandler.cpp:81-96 | the record stays valid, a call that completes nothing has consumed its whole input, and one that completes a frame has consumed something and is ready for the next frame |
| WebSocketFrame.Frame.constructor | src/WebSocket/WebSocketHandler.hpp:12-24 | the initial record |
| WebSocketFrame.Frame.ReadLength | src/WebSocket/WebSocketHandler.cpp:29-48 | the branch of the length bytes computes the specified iteration |
| WebSocketFrame.Frame.ReadMask | src/WebSocket/WebSocketHandler.cpp:50-62 | the branch of the mask bytes computes the specified iteration |
| WebSocketFrame.Frame.Turn | src/WebSocket/WebSocketHandler.cpp:15-78 | one turn of the loop computes the specified iteration |
| WebSocketFrame.Frame.Unmask | src/WebSocket/WebSocketHandler.cpp:88-93 | unmasking in place is the XOR with the repeated key |
| WebSocketFrame.Frame.ReceiveData | src/WebSocket/WebSocketHandler.cpp:7-96 | the loop terminates by bytes left and then reading state, and its count, outcome and record are those of the specification |
| WebSocketHandler.ReadsInOrderIffAtMostOneFrame | src/WebSocket/WebSocketHandler.cpp:98-125 | every pass of the loop starts where the previous one stopped if and only if the input completes at most one frame |
| WebSocketHandler.OneFrameReturns | src/WebSocket/WebSocketHandler.cpp:98-125 | with at most one frame the call returns within two passes and decodes the buffer |
| WebSocketHandler.TwoFramesMisread | src/WebSocket/WebSocketHandler.cpp:104-124 | with two frames or more the third pass starts in the wrong place |
| WebSocketHandler.TwoSmallFramesNeverReturn | src/WebSocket/WebSocketHandler.cpp:104-124 | two three-byte frames in one call: after any number of passes the loop goes on, delivering the second frame each time |
| WebSocketHandler.DecodeSplit | src/WebSocket/WebSocketHandler.cpp:98-125 | decoding a stream in two parts gives the messages of both and the state of the whole |
| WebSocketHandler.IdleIsCleared | src/WebSocket/WebSocketHandler.cpp:120-123 | whenever a buffer ends between two frames the record has neither flags nor a length byte |
| WebSocketHandler.ChunkedRun | src/WebSocket/WebSocketHandler.cpp:98-125 | for every chunking with at most one frame per call, the calls as written deliver the messages of the unbroken stream, in order, and end in its state |
| WebSocketHandler.StreamOfFrames | src/WebSocket/WebSocketHandler.cpp:98-125 | the messages of a stream of encoded frames and a tail are those frames and then what the tail decodes to |
| WebSocketHandler.UnfinishedFrame | src/WebSocket/WebSocketHandler.cpp:14-96 | an idle decoder waits after the first part of a frame, and the second part completes it |
| WebSocketHandler.DeliversWhatWasSent | src/WebSocket/WebSocketHandler.cpp:98-125 | however a stream of frames and the beginning of one more is cut, with at most one frame per call the payloads delivered are those sent, in order, and the missing bytes complete the partial frame that is left |
| WebSocketHandler.Handler.OnInput | src/WebSocket/WebSocketHandler.cpp:98-125 | on the inputs with at most one frame it delivers the decoded messages and leaves the decoded state |
| WebSocketOutcome.RightIffAtMostOneFrame | src/WebSocket/WebSocketHandler.cpp:98-125 | for every call that begins between two frames, on every input that fails no assert: it returns the messages and the record of the decoding if and only if at most one frame completes |
| WebSocketOutcome.DecodedIsAStream | src/WebSocket/WebSocketHandler.cpp:98-125 | all that decodes without an assert is a stream of encoded frames and the beginning of one more, and the record tells how long that is |
| WebSocketOutcome.LoopReads | src/WebSocket/WebSocketHandler.cpp:104-124 | everything the loop delivers, misread or not, is a frame that lies in the buffer at the length of the frame before |
| WebSocketOutcome.MidFrameAlike | src/WebSocket/WebSocketHandler.cpp:98-125 | a call in the middle of a frame that completes three, misreads the third, and ends with the right messages and record |
| WebSocketOutcome.AbortsAlike | src/WebSocket/WebSocketHandler.cpp:98-125 | an input with two frames and an assert that fails, on which the loop fails in the wrong place with the right messages and record |
| StructParser.MachineIsRecursion | src/JSON/StructParser.hpp:94-182 | for every schema, initial data and object document whose containers start under a non-empty current key, the events fill what direct recursion over the tree fills or throw what it throws, and current and stack end as they began |
| StructParser.MachineIsRecursionForNonEmptyKeys | src/JSON/StructParser.hpp:94-182 | in particular for every document with non-empty keys |
| StructParser.RunChild | src/JSON/StructParser.hpp:94-130 | a nested value of any depth leaves current and stack as they were, and the data as the recursion does |
| StructParser.EmptyKeyMisread | src/JSON/StructParser.hpp:94-103 | under an empty key a nested object is taken for the root, and filling throws where the recursion succeeds |
| StructParser.EmptyKeyAlwaysMisread | src/JSON/StructParser.hpp:94-121 | every document with a container under an empty key in a map, at any depth of maps, is misread where the recursion succeeds: the machine throws or ends without that entry |
| StructParser.MapsFilledIff | src/JSON/StructParser.hpp:94-130 | a document that the recursion accepts for a schema of maps is filled as the recursion fills it if and only if no object in it is under an empty key, at any depth |
| StructParser.PointersStayValid | src/JSON/StructParser.hpp:94-130 | after any event every pointer held by a filler on the stack still points into the data, inside what the filler below points at |
| StructParser.FillsIffMatches | src/JSON/StructParser.hpp:650-750 | filling succeeds exactly for the documents that match the schema, whatever the data held before |
| StructParser.StructMember | src/JSON/StructParser.hpp:652-704 | a scalar, array or object under a key of a struct changes the field of that name, from what it held, and no other, or throws for an unknown name, a wrong kind or a refused conversion |
| StructParser.StructByField | src/JSON/StructParser.hpp:652-704 | a filled struct field by field: each is what the members with its name make of it, one after another |
| StructParser.MapMember | src/JSON/StructParser.hpp:559-582 | under a key of a map, the entry of that key is made from the default or changed, and no other; a scalar leaves an entry that is there |
| StructParser.VectorItem | src/JSON/StructParser.hpp:464-489 | an item of a vector appends one element, made from the default of its type |
| StructParser.VectorByItem | src/JSON/StructParser.hpp:464-489 | a filled vector is what it held and then one element for each item, in order |
| StructParser.FieldsByName | src/JSON/StructParser.hpp:652-655 | a field is found by its name, the first of that name |
| StructParser.Defaults | src/JSON/StructParser.hpp:464-489 | new vectors and maps are empty, and new structs have each field at its default |
| StructParser.VectorCollects | src/JSON/StructParser.hpp:438-457 | a vector of leaves gets the conversions of the items in order behind what it held, or throws exactly if one does not convert |
| StructParser.VectorsOnlyGrow | src/JSON/StructParser.hpp:459-528 | a vector that appears again is appended to |
| StructParser.MapKeepsFirst | src/JSON/StructParser.hpp:554-626 | in a map of leaves present entries stay and of repeated keys the first wins |
| StructParser.StructKeepsLast | src/JSON/StructParser.hpp:657-671 | in a struct of leaves of repeated keys the last wins and other fields stay |
| StructParser.Parser.OnStartObject | src/JSON/StructParser.hpp:94-102 | the object makes the specified step, or throws the specified error (what a throw leaves in a vector or map is left out) |
| StructParser.Parser.OnStartArray | src/JSON/StructParser.hpp:113-121 | the object makes the specified step, or throws the specified error (what a throw leaves in a vector or map is left out) |
| StructParser.Parser.OnEnd | src/JSON/StructParser.hpp:105-129 | the enclosing filler becomes current again, if there is one |
| StructParser.Parser.OnKey | src/JSON/StructParser.hpp:132 | the object makes the specified step |
| StructParser.Parser.OnValue | src/JSON/StructParser.hpp:140-179 | the object makes the specified step, or throws the specified error (what a throw leaves in a vector is left out) |
| PocoJsonStringify.PrintParses | src/utils/PocoJsonStringify.hpp:86-234 | the reference parser of RFC 8259 gives back the printed tree and consumes all output, if and only if every number token is a number of the grammar |
| PocoJsonStringify.PrintInjective | src/utils/PocoJsonStringify.hpp:86-198 | two trees that print alike are the same |
| PocoJsonStringify.ValueInverse | src/utils/PocoJsonStringify.hpp:168-198 | a printed value is parsed back and exactly its text is consumed, whatever follows |
| PocoJsonStringify.StringInverse | src/utils/PocoJsonStringify.hpp:216-234 | a printed string is parsed back by the string grammar, every byte string included |
| PocoJsonStringify.EscapeInverse | src/utils/PocoJsonStringify.hpp:275-302 | every escape that is written stands for the byte it was written for |
| PocoJsonStringify.CharTexts | src/utils/PocoJsonStringify.hpp:216-302 | the exact text of each char: the short escapes, four upper-case digits for the other controls, and every other char as it is |
| PocoJsonStringify.PrintsShortest | src/utils/PocoJsonStringify.hpp:86-198 | the text of a tree is as short as the grammar allows with these strings: no white space |
| PocoJsonStringify.NumberInverse | src/utils/PocoJsonStringify.hpp:183-188 | a number token is read back whole before any text that cannot continue a number |
| PocoJsonStringify.Stringifier.EscapeJSONUTF8 | src/utils/PocoJsonStringify.hpp:254-329 | on one byte it appends the specified escape |
| PocoJsonStringify.Stringifier.FormatString | src/utils/PocoJsonStringify.hpp:216-234 | it appends the text of the string |
| PocoJsonStringify.Stringifier.StringifyObject | src/utils/PocoJsonStringify.hpp:86-99 | it appends the text of the object |
| PocoJsonStringify.Stringifier.StringifyArray | src/utils/PocoJsonStringify.hpp:129-140 | it appends the text of the array |
| PocoJsonStringify.Stringifier.StringifyVar | src/utils/PocoJsonStringify.hpp:168-198 | it appends the text of the value |
| PocoJsonStringify.JsonToString | src/utils/PocoJsonStringify.hpp:61-65 | what it returns parses to its argument if and only if the number tokens are numbers |
| Strutils.FindFrom | src/utils/Strutils.hpp:99 | the first occurrence at or after a position, and none only if there is none |
| Strutils.Join | src/utils/Strutils.hpp:66-81 | appending each piece with the separator and erasing the last one puts it between each two |
| Strutils.Explode | src/utils/Strutils.hpp:84-113 | an empty text has no pieces, an empty separator leaves the text whole, and otherwise the loop cuts at the separators found from the left, so that no piece contains one |
| Strutils.JoinOfExplode | src/utils/Strutils.hpp:66-113 | joining what was exploded gives the string, without its final separator exactly if the separators end there |
| Strutils.FinalSeparatorLost | src/utils/Strutils.hpp:98-110 | a string that ends on its separator, and does not come back |
| Strutils.PiecesEndAtSeparators | src/utils/Strutils.hpp:98-110 | no piece contains the separator, each that a separator follows ends at its first occurrence, and the last is empty only if a separator follows it |
| Strutils.ExplodeJoins | src/utils/Strutils.hpp:66-113 | the round trip holds if and only if the separator is empty or does not end the string so |
| Strutils.JoinExplodes | src/utils/Strutils.hpp:66-113 | exploding what was joined gives the pieces if and only if each piece is followed by the first separator it can be, and the last is not empty |
| Strutils.SeparableByCharacter | src/utils/Strutils.hpp:66-113 | for a separator of one character: if and only if it is in no piece and the last piece is not empty |
| Strutils.UrlDecode | src/utils/Strutils.hpp:115-168 | the loop, with its delayed flush, computes the specified decoding |
| Strutils.DecodesTriplets | src/utils/Strutils.hpp:136-166 | for every text, well formed or not: triplets decode, a triplet broken off by a percent sign or the end is dropped, everything else is copied |
| Strutils.DecodeInvertsEncoding | src/utils/Strutils.hpp:115-168 | decoding any text of characters and percent triplets gives the octets it stands for, if and only if no triplet has a lower-case digit |
| Strutils.LowerCaseMisread | src/utils/Strutils.hpp:119-128 | a slash encoded in lower case comes out as a blank |
| Strutils.EncodedBytesDecode | src/utils/Strutils.hpp:115-168 | every byte string survives upper-case percent-encoding, whichever other bytes are encoded |
| LuaScripts.EachJobOnce | src/queues/LuaScripts.hpp:45-172 | after any run of scripts each pushed job is in exactly one of ready, delayed and reserved, once, with its pops as attempts, nothing else is there, notifications match ready jobs, and size returns the number of jobs |
| LuaScripts.StepInv | src/queues/LuaScripts.hpp:60-172 | every script keeps this, and pop, release and migrate keep the size |
| LuaScripts.RunInv | src/queues/LuaScripts.hpp:60-172 | so does every run |
| LuaScripts.MigrateMovesExpired | src/queues/LuaScripts.hpp:132-154 | migration appends exactly the jobs whose score has passed, in score order, with one notification each, and leaves exactly the others |
| LuaScripts.FirstInFirstOut | src/queues/LuaScripts.hpp:60-90 | over every run without clear: what was ready, and then what was pushed or migrated, in this order, is what was popped, and then what is ready still; each job popped is reserved with one attempt more |
| LuaScripts.StepInOrder | src/queues/LuaScripts.hpp:60-90 | a pop returns a job exactly if one is ready, first as it was and then as it is reserved |
| LuaScripts.PoppedInOrder | src/queues/LuaScripts.hpp:60-90 | with pushes and pops alone the jobs come out in the order they were pushed |
| LuaScripts.ScoresAreTimes | src/queues/LuaScripts.hpp:80-116 | a released job is delayed until exactly the time given and no longer reserved; a popped one is reserved until exactly its expiry |
| LuaScripts.NotBeforeItsTime | src/queues/LuaScripts.hpp:107-150 | over every run a delayed or reserved job stays so until a migration at its time or later, unless it is released or cleared |
| LuaScripts.EqualTimesInOrder | src/queues/LuaScripts.hpp:80-116 | jobs with the same time are kept in the order of their members after every run |
| LuaScripts.NotificationsAreOnes | src/queues/LuaScripts.hpp:60-66 | every notification is a 1 after every run |
| LuaScripts.ReleaseConservesIff | src/queues/LuaScripts.hpp:109-119 | releasing a job conserves the jobs if and only if it was reserved or delayed |
| LuaScripts.ReleaseInvents | src/queues/LuaScripts.hpp:109-119 | releasing any job on an empty queue adds it |
| LuaScripts.Scripts.PushJob | src/queues/LuaScripts.hpp:60-67 | the job is last and notified |
| LuaScripts.Scripts.PopJob | src/queues/LuaScripts.hpp:79-96 | the commands make the specified atomic transition and return the job before and after counting the attempt |
| LuaScripts.Scripts.ReleaseJob | src/queues/LuaScripts.hpp:109-119 | the commands make the specified atomic transition |
| LuaScripts.Scripts.MigrateJobs | src/queues/LuaScripts.hpp:132-154 | the nested loop over chunks of 100 appends each expired job once, with its notification, and never pushes an empty chunk |
| LuaScripts.Scripts.SizeOf | src/queues/LuaScripts.hpp:45-49 | it counts the three places |
| LuaScripts.Scripts.Clear | src/queues/LuaScripts.hpp:166-172 | it empties all keys and returns the size before |
| JobQueue.PopsEarliest | src/queues/RedisQueue.cpp:83-91 | the delayed-pop script returns a member of the lowest score, not before that score, removes that member and no other, and returns nothing exactly if no score has come |
| JobQueue.StepPlaced | src/jobhandler/QueueWorker.hpp:100-229 | every command of every pusher and worker keeps each job in one place |
| JobQueue.StepInv | src/jobhandler/QueueWorker.hpp:100-229 | every command keeps the places, the stored data, the counts and the callbacks of every job |
| JobQueueOrder.FirstInFirstOut | src/queues/RedisQueue.cpp:20-22 | over every run of any number of workers and pushers: what was ready, and then what was pushed or given back without delay, in this order, is what the workers took, and then what is ready still |
| JobQueueOrder.StepDelays | src/queues/RedisQueue.cpp:24-101 | a scheduled job is delayed to its time and a retry to now plus its delay; a delayed job leaves only to a worker that asks at its time or later |
| JobQueueOrder.NotBeforeItsTime | src/queues/RedisQueue.cpp:24-101 | so over every run a delayed job is not taken before its time |
| JobQueueOrder.LaterInOrder | src/queues/RedisQueue.cpp:24-41 | after every run the delayed jobs lie in the order of their times, and at equal times of their names |
| JobQueueOrder.BeforeIsLower | src/queues/RedisQueue.cpp:24-41 | the order of the names is that of their bytes |
| JobQueueOrder.PushTimeStays | src/jobhandler/QueueWorker.hpp:118-122 | however a job fares, its record keeps the time of its push |
| JobQueueRuns.RunInv | src/jobhandler/QueueWorker.cpp:205-262 | so does every run |
| JobQueueRuns.JobsAreConserved | src/queues/RedisQueue.cpp:20-108 | after every run each pushed job is, once, in exactly one of: not queued yet, ready list, delayed set, one worker, finished; and queues and workers have nothing else |
| JobQueueRuns.ZaddAlwaysAdds | src/queues/RedisQueue.cpp:24-41 | a job being enqueued, by its push or by the worker that has it, is never among the delayed ones, so pushToLater never throws for it |
| JobQueueRuns.QueuedJobsAreComplete | src/queues/StdQueue.hpp:83-90 | while a job is in a queue its stored payload, class name and limit are as pushed, and its stored tries are the times handle ran, all failed, with another one allowed |
| JobQueueRuns.RemovedAfterMaxFailures | src/jobhandler/QueueWorker.cpp:225-236 | a job with a limit runs at most that often; once no worker has it, it is removed if and only if it failed exactly that often; without a limit it is never removed |
| JobQueueRuns.RemovedJobsStay | src/jobhandler/QueueWorker.hpp:189-191 | a removed job keeps its payload in the store, with one try less than it made, until its key expires |
| JobQueueRuns.NeverMalformed | src/jobhandler/QueueWorker.cpp:133-166 | the malformed-data exits are unreachable for a pushed job: it runs if and only if its class is registered, and otherwise is retried with its data unchanged |
| JobQueueRuns.EveryRetryIsDue | src/jobhandler/QueueWorker.cpp:87-111 | in every run every retry of a job is delayed by what handle() set in that run, or else the payload says, if positive, and otherwise by the delay of the retry before, 0 for the first |
| JobQueueRuns.NewDelayOverridesIff | src/jobhandler/QueueWorker.cpp:87-93 | in every run the retryAfter that a failing handle() set is the delay of its retry if and only if it is positive or the delay of the retry before |
| JobQueueRuns.RequeuesWhenDue | src/jobhandler/QueueWorker.hpp:202-226 | the delay a worker requeues with is the one of the round it ended |
| JobQueueRuns.CallbacksTellTheStory | src/jobhandler/QueueWorker.cpp:171-200 | the callbacks of a job are those of its rounds and then a prefix of STARTED COMPLETED, and REMOVED, with one try less than COMPLETED, if and only if the job was removed |
| JobQueueRuns.EveryRoundIsAnAttempt | src/jobhandler/QueueWorker.cpp:171-208 | with all classes registered they are STARTED COMPLETED RETRY triples, the i-th with i - 1, i and i tries, and then a tail |
| JobQueueRuns.StoryOfAttempt | src/jobhandler/QueueWorker.hpp:214-219 | the three callbacks of the i-th attempt and their counts |
| JobQueueRuns.QueuedComesFirst | src/jobhandler/QueueWorker.hpp:124-133 | if every push is followed at once by its callback, as in one thread, QUEUED is the first callback of every job |
| JobQueueRuns.QueuedFirstIff | src/jobhandler/QueueWorker.hpp:124-133 | in every run QUEUED is the first callback of a job if and only if no worker begins or bounces the job before it, or the job has no name |
| JobQueueRuns.QueuedCanComeLate | src/jobhandler/QueueWorker.hpp:124-133 | with a worker on another thread a job can be STARTED before its QUEUED |
| JobWork.WorkOnFull | src/jobhandler/QueueWorker.cpp:118-211 | a job with complete data runs, or is of an unregistered class and is returned for retry with no try counted; its counters stay, its payload and old delay leave the map, and its callbacks carry the tries before and after |
| JobWork.WorkExits | src/jobhandler/QueueWorker.cpp:118-166 | every exit before the run: a record without class name, JSON payload or numeric counters is removed, one of an unregistered class is retried, nothing is told and the map only gains empty texts; every other job runs |
| JobWork.RunLeaves | src/jobhandler/QueueWorker.cpp:95-208 | a run leaves in the map what it printed and, if retried, the counters; payload and old delay are gone from it, and class name and creation time stay |
| JobWork.PushedData | src/jobhandler/QueueWorker.hpp:118-123 | a push stores no tries, the limit, the payload, the time and the class name, and nothing else |
| JobWork.MergeKeepsFull | src/queues/StdQueue.hpp:83-90 | merging the worker's map back restores a complete record with the map's tries |
| JobWork.DelayOfRun | src/jobhandler/QueueWorker.cpp:87-111 | the delay of a retry is what the run persisted, else the one stored before, and merging the map back does not change it |
| JobQueue.WorkPersists | src/jobhandler/QueueWorker.cpp:87-93 | a run persists a delay exactly if it fails and what handle() set, or else the payload says, is positive |
| StdQueue.StdQueue.Push | src/queues/StdQueue.cpp:3-5 | the name is last in its queue, other queues unchanged |
| StdQueue.StdQueue.PushToLater | src/queues/StdQueue.cpp:7-14 | the name and time join the delayed jobs of the queue |
| StdQueue.StdQueue.Pop | src/queues/StdQueue.cpp:16-27 | the oldest name is taken; nothing is returned exactly if the list is empty; delayed jobs are not looked at |
| StdQueue.StdQueue.GetPersistentData | src/queues/StdQueue.hpp:63-66 | the data, or the exception for a missing name |
| StdQueue.StdQueue.GetPersistentDataField | src/queues/StdQueue.hpp:68-79 | the field, exactly if there is one, or the exception for a missing name |
| StdQueue.InsertOrAssign | src/queues/StdQueue.hpp:86-89 | assigning the given fields one by one, in any order, is merging |
| StdQueue.StdQueue.SetPersistentData | src/queues/StdQueue.hpp:83-90 | the given fields are assigned, the others of the name and the other names stay |
| StdQueue.StdQueue.DelPersistentData | src/queues/StdQueue.hpp:92-94 | the name is gone and nothing else |
| StdQueue.StdQueue.Expire | src/queues/GenericQueue.hpp:43-46 | the queue in memory never expires a key |
| QueueWorker.RunningJob.ProcessRetryCondition | src/jobhandler/QueueWorker.cpp:225-236 | a failed job is removed exactly if it has a limit and has reached it |
| QueueWorker.QueueWorker.Push | src/jobhandler/QueueWorker.hpp:100-136 | the data is stored with no tries, the name is in the list or among the delayed jobs, and QUEUED is called |
| QueueWorker.QueueWorker.HandleJobRun | src/jobhandler/QueueWorker.cpp:41-116 | the try is counted, a positive delay of a failed run is persisted, and logs replace an old delay in the map |
| QueueWorker.QueueWorker.DoWork | src/jobhandler/QueueWorker.cpp:118-211 | status, map, store and callbacks are those of the specification, on every exit |
| QueueWorker.QueueWorker.Requeue | src/jobhandler/QueueWorker.hpp:219-226 | the job is last in the list, or among the delayed ones at now plus the delay |
| QueueWorker.QueueWorker.ProcessRetry | src/jobhandler/QueueWorker.hpp:200-227 | the retry branch stores, reports and requeues as specified |
| QueueWorker.QueueWorker.ProcessJobResult | src/jobhandler/QueueWorker.hpp:148-229 | store, lists and callbacks are those of the specification |
| QueueWorker.QueueWorker.DoOne | src/jobhandler/QueueWorker.cpp:238-262 | one call is one turn of the specification, including the empty list, the empty name and the missing data |
| QueueWorker.TurnLeaves | src/jobhandler/QueueWorker.hpp:180-198 | the record of a job that ran is dropped exactly if it succeeded and logs are cleaned, and otherwise gets what the run printed and keeps its payload |
| QueueWorker.MalformedLeaves | src/jobhandler/QueueWorker.cpp:133-157 | a malformed job leaves the list for good and its record keeps all it had |
| QueueWorker.MalformedIsReported | src/jobhandler/QueueWorker.hpp:158-198 | it is reported as removed if it has a class name, with the tries of its record, or 0 |
| QueueWorker.TurnWithoutJob | src/jobhandler/QueueWorker.cpp:238-254 | on an empty list or an empty name the call returns false, and for missing data it throws; nothing is told and no data changes |
| QueueRefinement.TurnIsARun | src/jobhandler/QueueWorker.cpp:238-262 | a turn is a run of the protocol by one worker that ends idle, with the same list, data, callbacks and delay, and the other jobs as they were |
| QueueOperations.OperationsAreARun | src/jobhandler/QueueWorker.hpp:100-136 | any sequence of pushes and calls of do_one from an empty service is a run of the protocol: the same lists, delayed jobs and data, and for each job QUEUED and then the callbacks of the run |
| QueueOperations.CallbacksOfAProgram | src/jobhandler/QueueWorker.cpp:171-208 | so a program of one thread tells of a job of a registered class QUEUED, then STARTED COMPLETED RETRY for each failed attempt with its counts, then nothing, a success, or a last failure and REMOVED |
| QueueOperations.ZeroDoesNotOverride | src/jobhandler/QueueWorker.cpp:87-93 | a reached state in which a job delayed by 5, whose failing run set 0, is delayed by 5 again |
| QueueDrain.QueueDrains | src/jobhandler/QueueWorker.cpp:205-262 | if each job in the list is delayed, or of a registered class with a limit, then whatever the jobs do at most as many calls return true as there are tries left in the list, and after that many calls it is empty |
| QueueDrain.DrainsIff | src/jobhandler/QueueWorker.cpp:118-262 | for a list of unique names with complete data: it empties within some number of calls, whatever the jobs do, if and only if each job is delayed, or of a registered class with a limit |
| QueueDrain.ProgramDrainsIff | src/jobhandler/QueueWorker.hpp:100-136 | after any sequence of pushes and calls of one thread the list empties, whatever the jobs do, if and only if each job in it was pushed with a registered class and a limit |
| QueueDrain.StuckForEver | src/jobhandler/QueueWorker.cpp:225-236 | a job without delay that has no limit or no registered class stays in the list through any number of calls if runs fail and ask for no delay |
| QueueDrain.ProgramDelaysNone | src/jobhandler/QueueWorker.hpp:219-226 | after any sequence of pushes and calls no job in the list has a stored delay |
| QueueDrain.DelayedNeverRuns | src/queues/StdQueue.cpp:7-27 | a delayed job of a queue in memory stays delayed, out of the list and without callbacks, through all later pushes and calls |
| QueueDrain.ScheduledNeverRuns | src/queues/StdQueue.cpp:7-27 | of a job pushed with a time only QUEUED is ever called |
| QueueDrain.TurnSpendsBudget | src/jobhandler/QueueWorker.cpp:238-262 | each call on a non-empty list lowers the tries left and keeps the list runnable |
| QueueDrain.RunCostsATry | src/jobhandler/QueueWorker.cpp:205-208 | a job that comes back to the list has one try less left in the store |
| QueueDrain.UnregisteredNeverDrains | src/jobhandler/QueueWorker.cpp:161-166 | a job of an unregistered class without delay leaves the queue and the store exactly as they were, call after call |

## Left out

- Wake-up and time-outs of `borrow`: a waiting thread may wake or time out at any moment; nothing is claimed about when it does, since the notification is sent without the mutex.
- Memory order: atomic operations are sequentially consistent, as the source asks for by default.
- BorrowPool.Pool.constructor: does not model a pool of no slots, because the constructor sets the hint to slot 0.
- CircleMTIO.RingSafety: assumes the lap bound, as do StepInv, RunInv and SlotsCycle, because the code is not safe without it; `LimitIsExact` says so for every size.
- CircleMTIO.Ring.NewWrite: the methods of class `Ring` are the operations run without interference; interleavings are in the step system.
- WebSocketHandler.Handler.OnInput: restricted to inputs completing at most one frame, because on others the loop misreads its input and may not return; the loop as written is `Loop`, without that restriction.
- WebSocketFrame.Receive: an assert of the source that fails is the outcome `Abort`; builds without asserts, where the byte is written out of bounds, are not modelled.
- Allocation: `payload.resize` always succeeds, whatever length the header announces.
- WebSocket plumbing: connections, peers, sending and the close handshake.
- StructParser.MachineIsRecursionForNonEmptyKeys: one way only for empty keys, since some documents with an empty key are filled correctly; `MachineIsRecursion` gives the weaker condition on the current key, and `MapsFilledIff` the exact one for schemas of maps.
- WebSocketHandler.OneFrameReturns: one way only in the middle of a frame and on input that fails an assert, since a misread input can come out right there; `RightIffAtMostOneFrame` is exact for the other calls.
- StructParser conversions of scalars are a parameter, so what Poco converts or refuses is left open; what a throw leaves behind is not modelled.
- StructParser.Parser.OnStartObject: after a throw the object is as before the event here, while the source may have appended a default element or entry by then; the same holds for OnStartArray and OnValue.
- StructParser pointers are paths from the root; the reallocation of a vector while a pointer into it is live is excluded by `PointersStayValid` and not otherwise modelled. The compile-time sort of the field list is left out, because the search is linear.
- PocoJsonStringify.PrintParses: default mode only; the mode that escapes all Unicode truncates code points to one byte and is left out, as are texts of the Poco number formatter, which are tokens here, with hexadecimal output assumed upper case and padded with zeros.
- PocoJsonStringify.Stringifier.EscapeJSONUTF8: one byte below 0x80 at a time, as the default mode calls it; longer ranges belong to the other mode.
- PocoJsonStringify.Stringifier.FormatString: does not model the branch for escapeAllUnicode, for the same reason.
- PocoJsonStringify.Stringifier.StringifyVar: a char, a date or a time is the string it converts to, and an empty pointer is null.
- Strutils.Join: the reservation of memory is left out.
- LuaScripts: a payload is its body and its attempts, so decoding and encoding JSON is assumed to change the attempts only; the order of members with equal scores is any, given by a parameter.
- JobQueueRuns.RemovedJobsStay: does not model that the key of a removed job expires; the statement is about the time before.
- JobQueue: keys do not expire, workers do not crash between commands, and a connection does not fail; `getFullQueue`, `ttl` and the counts per job type are left out.
- JobWork.WorkOnFull: decimal texts are numbers, payload JSON is its class name and retryAfter, and handle() is an outcome that leaves tries and the limit alone.
- QueueWorker.QueueWorker.HandleJobRun: does not model forking, `LastException`, output redirection and temporary files, because they are effects of the operating system.
- StdQueue: the delayed jobs are a multiset, since no operation takes them out; inspection methods are left out.
- HTTP routing, controllers, TLS, databases, caches, configuration and input validation: they rest on external systems or would add easy members only.
