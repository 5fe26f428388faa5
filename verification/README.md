# Verified model of the mDNS service browser

The crate discovers DNS-SD services on macOS (mDNSResponder), Linux (Avahi over D-Bus) and Windows (Win32
DNS-SD). This project models the logic the crate itself owns and proves what that logic keeps over every
run, whatever the operating system answers:

- **Name surgery** (`Names.dfy`): taking the answers of the DNS-SD meta-query apart, on macOS and on Windows.
- **The packed TXT codec** (`Txt.dfy`), decoder and encoder, as in sections 6.1 and 6.4 of RFC 6763.
- **The macOS pump** (`PumpProtocol`, `PumpTheorems`, `PumpReplies`, `Pump`, `PumpSystem`, `Resolve`): one thread, one
  connection, a queue filled inside dispatches and drained outside them, a stop flag, and resolve tasks.
- **The Linux task forest** (`Forest`, `ForestTheorems`, `ForestMessages`, `Tasks`): asynchronous tasks tied to each other by
  abort-on-drop handles.
- **The Windows registry** (`WindowsProtocol`, `WindowsTheorems`, `WindowsAnswers`, `Windows`): contexts lent to the OS as raw
  pointers, and boxes leaked to it and taken back.

## How to read it

Each back-end has a *machine*: a function from a state and an action to the next state, or to nothing if the
code never acts so there (`PumpProtocol.Step`, `Forest.Next`, `WindowsProtocol.Step`). A run is a log of
actions the machine accepts; the OS, the poll call, the guard and the receiver choose freely among what they
may do. The `...Theorems` modules prove what holds of every accepted log. Their statements speak about the
log through small recursive functions of their own (`Announced`, `Attempted`, `StartedRefs`, `Held`,
`Times`, `SentBy`, ...), not through the machine's state alone.

`PumpReplies`, `ForestMessages` and `WindowsAnswers` tie the inputs of a run to its outputs in the source's own
terms: what a request, a reply, a poll answer, a message or a completion turns into, said without the functions
the machines decide by.

The code itself is in `Pump`, `Resolve`, `Tasks` and `Windows`: classes whose methods update the source's
fields in place and record every native call, callback, message and spawn. Recording demands that the machine
allows the action, so each method is proved to be a run of the machine from any state it may be called in,
and its postcondition says at which point of the machine it leaves off and that its own fields are the ones
the machine calls for. Loops that wait for the outside world are bounded by an arbitrary `patience`, so that
every finite run is covered.

A macOS callback is given its context by the daemon; what it may rely on is `PumpTheorems.NativeSafety`. The
string surgery reaches the machines as function values (`config.rebuild`, `Surgery`), so that the theorems
hold for any surgery, and `Genuine` says that the code's is used where a theorem depends on it; `CodeIsGenuine`
in either protocol module shows that the code's own meets it.

## Results worth stating

- Three claims hold only under a condition, and the condition is exact. `MetaReplyInvertsReport`: the macOS
  reconstruction recovers a type, however mDNSResponder cut it, if and only if no empty label was reported
  between the parts; `DoubledDotMisleads` is an input outside it, with a doubled dot mDNSResponder has no reason
  to report. `LabelRecovered`: a Windows child browse finds the instance label again if and only if the announced
  type has a dot; `SingleLabelMisleads` is an input outside it. `RootLabelRecovered`: a Windows browse for a
  caller's own type and domain finds it again if and only if these do not end in a dot (or are dots only, and the
  label ends in none), because targets are trimmed and the suffix to strip is not; `TrailingDotMisleads` is an
  input outside it: with the domain `local.`, a service is reported under its whole name.
- The macOS and the Windows splitters put the same name in the same `(type, domain)` parts exactly when it has
  three labels (`SplittersAgreeOnThreeLabels`): macOS takes two labels for the type, Windows one for the domain.
- `DiscoveredService::txt` documents `None` for a key that is absent or key-only. The first entry decides: a
  key-only entry hides a later entry of the same key that has a value (`LookupAgreesWithWire`).
- On macOS a resolve's TXT data is that of the latest good reply that carried any, not of the last reply (`Resolve.LastTxt`).
- The code compares TXT keys exactly and keeps entries that start with `=`; section 6.4 of RFC 6763 asks for
  case-insensitive keys and for such entries to be dropped. The model follows the code.

## Model

| member | source | states |
|---|---|---|
| Seqs.Dedup | src/macos/browse.rs:388-399 | Filtering a stream through set insertion keeps exactly its elements, each once. |
| Seqs.DedupPrefix | src/macos/browse.rs:388-399 | A longer stream only ever extends the filtered one. |
| Seqs.DedupOrder | src/macos/browse.rs:388-399 | Elements are kept in the order of their first occurrences. |
| Names.TrimDot | src/browse.rs:378-380 | The result is a prefix, does not end in a dot, and only dots were removed. |
| Names.TrimStart | src/macos/browse.rs:682 | The result is a suffix, does not start with a dot, and only dots were removed. |
| Names.RSplitOnce | src/windows/browse.rs:344-347 | Splits iff there is a dot, loses nothing, and cuts at the last one. |
| Names.JoinSplit | src/macos/browse.rs:690-692 | Joining the split pieces gives the string back, for every string. |
| Names.SplitJoin | src/macos/browse.rs:690-692 | Splitting joined non-empty dot-free labels gives the labels back. |
| Names.MetaReplyLosesNothing | src/macos/browse.rs:674-694 | On any input, type and domain glue back to the trimmed re-joined name; the domain is empty iff that has at most two labels; the domain never ends in a dot, so the root is never browsed. |
| Names.RejoinReport | src/macos/browse.rs:679-690 | For any labels, any cut and any dots around the parts, what re-joining and trimming yields, down to the dots left in between. |
| Names.MetaReplyInvertsReport | src/macos/browse.rs:654-694 | For any report of a name of two or more labels, the first two labels and the rest are recovered iff no empty label was reported between type and domain. |
| Names.DoubledDotMisleads | src/macos/browse.rs:679-690 | A name whose type is closed by two dots, outside what mDNSResponder reports, for which they are not recovered. |
| Names.LabelRecovered | src/windows/browse.rs:341-363 | Stripping the child browse's type and domain from `instance.target` gives the instance, dots and all, iff the target has a dot. |
| Names.SingleLabelMisleads | src/windows/browse.rs:344-347 | A dotless target for which nothing is stripped. |
| Names.RootLabelRecovered | src/windows/browse.rs:532-535 | For the caller's own type and domain and a trimmed target, the label is found again iff they do not end in a dot, or are nothing but dots and the label ends in none. |
| Names.TrailingDotMisleads | src/windows/browse.rs:316-317 | A caller's domain `local.` for which the whole name is taken for the label. |
| Names.SplittersAgreeOnThreeLabels | src/windows/browse.rs:341-347 | Last-label splitting and the macOS two-label splitting of a proper name agree iff it has three labels. |
| Txt.ParseEntrySplits | src/browse.rs:342-353 | An entry parses to a key and value iff it is `key` or `key=value` with no `=` in the key. |
| Txt.PrintParsed | src/browse.rs:342-353 | Printing a parsed entry gives its bytes back, for all bytes. |
| Txt.ParsePrinted | src/browse.rs:342-353 | A record survives printing and parsing iff its key has no `=`. |
| Txt.ParseTxtBuffer | src/browse.rs:358-373 | The index loop computes the recursive decoding of every buffer. |
| Txt.EncodeEntries | fuzz/fuzz_targets/txt_roundtrip.rs:13-26 | The encoder loop computes the framing of the clipped entries and their expected records, and decoding the one yields the other. |
| Txt.Framing | src/browse.rs:358-373 | Every buffer is complete entries and a truncated tail, and decodes to the records of those entries that are not empty. |
| Txt.FramingUnique | src/browse.rs:358-373 | There is only one way to cut a buffer so. |
| Txt.WireFormat | src/browse.rs:361-371 | A length byte, then that many bytes, both ways; a zero length yields nothing, one beyond the end ends the decoding. |
| Txt.ParseConcat | fuzz/fuzz_targets/txt_roundtrip.rs:13-26 | Encoded entries followed by any tail decode to the expected records followed by the tail's. |
| Txt.RoundTrip | fuzz/fuzz_targets/txt_roundtrip.rs:13-26 | Encoded entries decode to the single-entry parse of each non-empty clipped entry, in order. |
| Txt.Compositional | src/browse.rs:358-373 | Decoding distributes over an encoded front and an arbitrary tail. |
| Txt.DecodableIffCarriable | src/browse.rs:358-373 | A list of records is the decoding of some buffer iff each has an `=`-free key and prints to 1 to 255 bytes. |
| Txt.CanonicalForm | src/browse.rs:358-373 | Re-encoding decodes to the same records; lengths account for every byte; it is the identity iff there was no empty entry and no tail. |
| Txt.TruncationMonotone | src/browse.rs:361-366 | Decoding a truncated buffer gives a prefix of decoding the whole. |
| Txt.SizeLimits | src/browse.rs:358-373 | At most half as many records as bytes, and values of at most 254 bytes. |
| Txt.LookupAgreesWithWire | src/browse.rs:277-282 | The lookup's answer is the value of the first non-empty wire entry carrying the key, or nothing if none does. |
| PumpTheorems.CascadeRefinesDedup | src/macos/browse.rs:340-399 | At every moment: child browses attempted, followed by the queue, are the announced types with repeats dropped, in order; `seen` is the set of them. |
| PumpTheorems.CascadeAtLoopHead | src/macos/browse.rs:307-352 | Whenever the stop flag is looked at, nothing is queued and live operations are one more than the types seen, less the failed starts. |
| PumpTheorems.ContextsByOrder | src/macos/browse.rs:288-293 | The first operation carries the root's context, every later one the instance context. |
| PumpTheorems.ChildrenAnnounceNothing | src/macos/browse.rs:372-399 | Only replies on the first operation announce types, and only if it is the meta-query; child replies leave `seen` and the queue alone. |
| PumpTheorems.NoCascadeWithoutMeta | src/macos/browse.rs:54-57 | A browse for one given type announces, queues and attempts nothing else, ever. |
| PumpTheorems.OneBrowsePerName | src/macos/browse.rs:388-399 | However often and however differently cut one DNS name is reported, exactly one browse is made or due for it, under its first two labels and the rest. |
| PumpTheorems.DueOnce | src/macos/browse.rs:388-399 | Every announced type occurs exactly once among the browses made or due. |
| PumpReplies.AddBitDecides | src/macos/browse.rs:379 | The 0x2 bit alone decides whether a reply is an Add. |
| PumpReplies.BrowsesAsRequested | src/macos/browse.rs:43-57 | Every browse carries the caller's interface; the root's has the caller's type, or the meta-query's and its context iff none was given, and the caller's domain or none; children exist only under the meta-query. |
| PumpReplies.NulsAreRejected | src/macos/browse.rs:203-208 | A browse is rejected iff its type or domain has a NUL, naming the first one, the type's before the domain's. |
| PumpReplies.RootAddsAreBrowsed | src/macos/browse.rs:381-399 | With no service type given, every Add on the root is browsed or queued exactly once. |
| PumpReplies.AnnouncedAreMetaAdds | src/macos/browse.rs:381-399 | What the cascade deduplicates are exactly the types rebuilt from the meta-query's error-free Adds. |
| PumpReplies.RepliesAnswered | src/macos/browse.rs:369-418 | Resolves spawned are, in order, exactly the instances of error-free instance Adds; messages sent are, in order, exactly the error replies, removals with trimmed type and domain, failed child starts and the fatal error. |
| PumpReplies.ReturnsForReason | src/macos/browse.rs:285-333 | The pump returns without error only on the stop flag or a hang-up without data, and with an error only on the native failure it names. |
| PumpReplies.WhatFollows | src/macos/browse.rs:307-333 | After a timeout, EINTR or quiet poll the stop flag is looked at again; a readable connection is dispatched on, hung up or not; every decision that ends the pump is followed by teardown. |
| PumpTheorems.EffectsExplained | src/macos/browse.rs:340-419 | Messages sent and tasks spawned are exactly those the callbacks, failed starts and the fatal error call for, in order. |
| PumpTheorems.ExplainedByCause | src/macos/browse.rs:340-419 | Error replies, instance adds, instance removals, failed starts and the fatal error each count once. |
| PumpTheorems.NothingAfterReturn | src/macos/browse.rs:60-66 | After the pump returns, only the report of its error and the thread's end follow. |
| PumpTheorems.FootingHolds | src/macos/browse.rs:255-296 | Connection and dispatch, read off the log, are where the code's position says. |
| PumpTheorems.HeldBlocks | src/macos/browse.rs:264-283 | The memory held, read off the log, is the state and the contexts allocated and not freed. |
| PumpTheorems.RefsConserved | src/macos/browse.rs:229-238 | Deallocated references followed by live ones are the started ones, in order and without repeats. |
| PumpTheorems.LiveCount | src/macos/browse.rs:340-352 | Types heard are those attempted and queued; live operations count the root and the successful attempts. |
| PumpTheorems.NativeSafety | src/macos/browse.rs:141-296 | At every action: the descriptor is asked for, results processed and browses started only on a live connection and outside dispatches, with contexts in place; callbacks reach only live operations; each operation is given back once and before its connection; memory goes last. |
| PumpTheorems.TornDown | src/macos/browse.rs:234-296 | On every exit path everything started has been given back once, the connection is gone and memory released. |
| PumpTheorems.NeverStuck | src/macos/browse.rs:255-334 | The machine has a next action until, and only until, the thread has ended. |
| PumpSystem.EventConservation | src/macos/browse.rs:354-419 | In every interleaving: events sent, resolves in flight and the effect at hand sum to the causes counted. |
| PumpSystem.OneEventPerResolve | src/macos/browse.rs:422-450 | A resolve task sends exactly one event when it finishes, ResolveFailed or Found under its own identity, and none otherwise. |
| PumpSystem.StreamEnds | src/browse.rs:112-121 | Counting handles made and dropped: `recv` can yield `None` exactly when the pump thread has ended, no resolve is in flight and every event sent was received. |
| PumpSystem.ClosedForGood | src/browse.rs:112-121 | Once no sender is left, none comes back and nothing more is sent. |
| PumpSystem.NoneIsFinal | src/browse.rs:114-120 | Before `None` every event sent was received; after it nothing is sent or received, and `recv` yields nothing else. |
| PumpSystem.StopResponse | src/macos/browse.rs:300-334 | Once the flag is set: at most one further poll and one dispatch, and a bound on all further steps in terms of the backlog and further callbacks. |
| Pump.World.StartBrowse | src/macos/browse.rs:210-223 | A browse starts only when expected and with clean strings, and yields a new reference or an error code. |
| Pump.PumpState.BrowseCallback | src/macos/browse.rs:354-419 | An error reply sends its error; a meta Add queues its rebuilt type if new; an instance Add spawns the resolve of exactly that instance; any other instance reply sends Removed with type and domain trimmed; nothing else is sent, spawned, remembered or queued. |
| Pump.CString | src/macos/browse.rs:641-645 | Fails iff there is a NUL, naming the string and the first one's position. |
| Pump.SharedConnection.SocketFd | src/macos/browse.rs:172-180 | Fails iff the descriptor is negative. |
| Pump.SharedConnection.Browse | src/macos/browse.rs:196-231 | Exactly one browse is attempted; the operation is kept iff it started, else the error names the NUL or the daemon's code. |
| Pump.SharedConnection.ProcessResult | src/macos/browse.rs:183-191 | One dispatch of any callbacks on live operations; fails iff its status is not 0, with that status. |
| Pump.SharedConnection.Drop | src/macos/browse.rs:234-246 | Every operation is deallocated, then the connection. |
| Pump.StartPendingBrowses | src/macos/browse.rs:340-352 | The queue is drained in order, each entry attempted, failures reported and skipped. |
| Pump.PumpLoop | src/macos/browse.rs:300-334 | Ends only on the stop flag or a hang-up without data, with no error, or on a poll error other than EINTR or a failed dispatch, with that error. |
| Pump.RunPump | src/macos/browse.rs:255-296 | On every early return the connection goes before contexts and state. |
| Pump.PumpThread | src/macos/browse.rs:43-69 | For any request: every browse is as asked for, the pump ends for a reason only, every announced type is browsed or queued once, every reply is answered exactly, and everything is torn down. |
| Resolve.ResolveResult.ResolveCallback | src/macos/browse.rs:500-526 | Holds the last reply's status and, if good, its host and port, and the TXT data of the latest good reply that carried any. |
| Resolve.AddrResult.GetaddrCallback | src/macos/browse.rs:581-603 | Appends the address of a reply iff its code is 0 and it carries one; done once a reply lacks the more-coming bit. |
| Resolve.UsableConcat | src/macos/browse.rs:581-599 | Addresses of consecutive batches add up, in order. |
| Resolve.UsablePicked | src/macos/browse.rs:594-599 | The usable addresses are those of the error-free replies that carry one, each once, in order. |
| Resolve.PickedUnique | src/macos/browse.rs:594-599 | There is only one such list. |
| Resolve.LatestTxtWins | src/macos/browse.rs:517-525 | By position: the latest error-free reply with TXT data determines it; without one there is none. |
| Resolve.LowestBitDecides | src/macos/browse.rs:600-602 | The 0x1 bit alone decides whether more is coming. |
| Resolve.DoResolve | src/macos/browse.rs:461-498 | Succeeds iff the arguments are clean, the query was taken and processed in time and the last reply was good; yields its host and port and the latest TXT data; the reference is always returned. |
| Resolve.ProcessOnce | src/macos/browse.rs:606-623 | Succeeds iff the poll ended in time and processing reported no error; without a reply in time nothing changes. |
| Resolve.GetAddresses | src/macos/browse.rs:534-579 | Yields, in order and each once, exactly the addresses of the error-free replies of all batches; stops only when done, out of time or cut off; nothing iff the host is unclean or the daemon refuses. |
| Resolve.ProcessAddresses | src/macos/browse.rs:572-574 | One batch is collected, and ends the lookup iff some reply said no more is coming. |
| Resolve.ResolveService | src/macos/browse.rs:422-450 | One event: Found, with the instance's identity and exactly the host, port, TXT data and addresses of the replies, iff the resolve succeeded, else ResolveFailed; every reference closed. |
| Forest.Unfinished | src/linux/browse.rs:298 | `retain` keeps exactly the unfinished tasks' handles. |
| Forest.EndSound | src/linux/browse.rs:83-101 | A task's end, aborting what it owns, keeps the ownership invariant. |
| Forest.SpawnSound | src/linux/browse.rs:219-225 | Spawning a child and pushing its handle keeps the ownership invariant. |
| Forest.NextSound | src/linux/browse.rs:164-346 | Every move of every task, the guard and the receiver keeps it. |
| Forest.AlwaysSound | src/linux/browse.rs:164-346 | It holds in every reachable forest. |
| ForestTheorems.OwnedOrAborted | src/linux/browse.rs:80-101 | Every unfinished child or resolver has exactly one live owner, or is aborted and has none. |
| ForestTheorems.QuiescentMeansGone | src/linux/browse.rs:80-101 | With the guard gone, or the root ended by itself, and nothing left to reap, every task is done. |
| ForestTheorems.ReapingMeasure | src/linux/browse.rs:80-101 | Each drop by the runtime takes exactly one live task; with the guard or the root gone, a run of drops that has run out has taken them all. |
| ForestTheorems.OneBrowsePerType | src/linux/browse.rs:188-236 | Per-type tasks spawned are the well-formed announcements with repeats dropped, in order; the root holds one handle for each. |
| ForestTheorems.ResolversNeverLost | src/linux/browse.rs:270-309 | While a browser runs, each of its unfinished resolvers is in its vector and not aborted, and none was dropped. |
| ForestTheorems.AlwaysConserves | src/linux/browse.rs:242-346 | For every browser, running, finished or dropped: its and its resolvers' events, resolvers in flight and resolvers dropped sum to the well-formed messages it handled and its failure to start. |
| ForestTheorems.BrowserSays | src/linux/browse.rs:188-343 | A browse task has sent its failure to start, or exactly the removals and failures its messages call for, in order. |
| ForestMessages.MessagesHandled | src/linux/browse.rs:188-309 | A browse task has handled exactly the messages delivered to it, and spawned one resolver per instance announced, by name, in order, repeats included. |
| ForestTheorems.OneEventPerResolver | src/linux/browse.rs:352-394 | A resolver sends its one answer if it finishes, and nothing if it is dropped. |
| Tasks.Runtime.Await | src/linux/browse.rs:193 | Across an await a task finds its own locals unchanged, or has been dropped. |
| Tasks.MovesOfOthers | src/linux/browse.rs:83-101 | No move of another task, the guard or the receiver touches a task's locals, short of dropping it. |
| Tasks.HandleTypeMessage | src/linux/browse.rs:201-235 | One message is exactly one move of the forest, with `seen` and `child_browsers` as the move leaves them. |
| Tasks.BrowseAllTypes | src/linux/browse.rs:164-239 | Under any interference the task ends, having handled exactly the messages delivered, with one per-type task per distinct announcement and the events its messages call for. |
| Tasks.RetainUnfinished | src/linux/browse.rs:298 | The filtering loop computes the retained handles. |
| Tasks.HandleInstanceMessage | src/linux/browse.rs:281-342 | One message is exactly one move; the loop is left iff a removal could not be delivered, the receiver being gone. |
| Tasks.BrowseOneType | src/linux/browse.rs:242-346 | Under any interference the task ends, having handled exactly the messages delivered, with one resolver per instance announced, all messages accounted for and the events they call for sent. |
| Tasks.ResolveAndEmit | src/linux/browse.rs:352-394 | The one event sent is Found iff the proxy and the resolve succeeded; none if dropped. |
| WindowsTheorems.LifecycleHolds | src/windows/browse.rs:28-62 | Browses active in the OS are the registry's and the one being started; their contexts and no others are held; raw boxes are the waiting ones and the one in hand; only the first context can be the meta-query's. |
| WindowsTheorems.BrowseOnce | src/windows/browse.rs:41-62 | Each context is freed at most once and held until then; each accepted browse is cancelled at most once and active until then. |
| WindowsTheorems.BoxOnce | src/windows/browse.rs:151-237 | Each box is reclaimed at most once and raw until then; each reclaimed box is answered once; each taken resolve is completed once or waiting; each instance is freed once. |
| WindowsTheorems.NativeSafety | src/windows/browse.rs:28-62 | At every action: browses are started, called back for, walked and cancelled only while their context and query name are allocated; contexts go only after their cancellation; resolves are started, completed and reclaimed only while their box is raw; records are read and freed only while their list is in hand. |
| WindowsTheorems.MemoryCounted | src/windows/browse.rs:311-327 | Contexts and boxes are numbered as they are made; every record list handed over is freed once, at the end of its walk. |
| WindowsTheorems.EachBoxAnswered | src/windows/browse.rs:195-202 | Between callbacks, a resolve the OS still owes is unanswered and every other was answered once, under its own identity; the fallback for a channel closed without a result is never reached. |
| WindowsTheorems.AfterTeardown | src/windows/browse.rs:32-62 | After the guard's drop: any context made was freed once and its browse, if accepted, cancelled once; any box made is still waiting, or was reclaimed and answered once. |
| WindowsTheorems.SendsExplained | src/windows/browse.rs:305-309 | Browse callbacks have sent exactly the error statuses they were called with, in order, but for the one being reported. |
| WindowsTheorems.AnswersConserved | src/windows/browse.rs:151-237 | Answers given, the one due and boxes still raw sum to the boxes leaked. |
| WindowsTheorems.AnswersConcernTheirBox | src/windows/browse.rs:419-453 | Every answer is a failure naming its box or a service under the box's name, type and domain. |
| WindowsAnswers.AnswersAreRight | src/windows/browse.rs:428-449 | Every answer is Found iff the OS completed the resolve with status 0 and an instance, then with that instance's port, addresses, TXT data, interface and trimmed host name under the box's identity; else, and for refusals, a failure naming the box. |
| WindowsAnswers.OneRightAnswer | src/windows/browse.rs:195-237 | Between callbacks every resolve no longer owed has exactly that one answer. |
| WindowsAnswers.AllRecordsRead | src/windows/browse.rs:305-320 | Whatever its status, a callback's records are all read, in order. |
| WindowsAnswers.ContextsAsRequested | src/windows/browse.rs:94-108 | The first context is the caller's: its query, type, domain with the default, and the meta flag iff no type was given; every other is its child. |
| WindowsTheorems.SeenIsHeard | src/windows/browse.rs:330-339 | A context's `seen` is the set of trimmed PTR targets it was handed. |
| WindowsTheorems.CascadeRefinesDedup | src/windows/browse.rs:330-365 | For every browse: names attempted, with the one about to be, are the PTR targets heard with repeats dropped, in order. |
| WindowsTheorems.NamedHolds | src/windows/browse.rs:341-364 | A child browse was heard of by a meta browse and carries the two parts of its target, with that browse's domain as fallback; a resolve was heard of by an instance browse and is named by stripping that browse's type and domain. |
| WindowsTheorems.CascadeFindsLabel | src/windows/browse.rs:341-364 | In any run, an instance heard by a child browse is resolved under its own label iff the child's target has a dot. |
| WindowsTheorems.RootFindsLabel | src/windows/browse.rs:86-128 | In any run of a browse for one given type, an instance is resolved under its own label iff the caller's type and domain meet that condition. |
| Windows.Backend.StartBrowse | src/windows/browse.rs:240-294 | Nothing is allocated for an unfit name; otherwise a context is, and it is registered iff the OS accepted the browse, else freed. |
| Windows.Backend.Launch | src/windows/browse.rs:276-293 | With the context allocated: registered iff the OS answers that the request is pending, else freed. |
| Windows.Backend.FromRaw | src/windows/browse.rs:424-426 | A box is reclaimed only while raw. |
| Windows.Backend.StartResolve | src/windows/browse.rs:378-417 | A box is leaked iff the name is fit; it stays leaked iff the OS took the resolve, else it is reclaimed and answered. |
| Windows.Backend.Resolve | src/windows/browse.rs:402-416 | With the box raw: on refusal, and only then, it is reclaimed and answered. |
| Windows.Backend.Refuse | src/windows/browse.rs:406-414 | A refused resolve is reclaimed and answered on the spot. |
| Windows.Backend.HandlePtr | src/windows/browse.rs:330-365 | A known target is ignored; a new one is remembered and starts exactly one child browse (meta, guard alive) or resolve, with the parts the surgery gives. |
| Windows.Backend.BrowseCallback | src/windows/browse.rs:296-328 | One callback, from the status report to the freed list, with the context in use allocated throughout and memory as the machine calls for. |
| Windows.Backend.ResolveCallback | src/windows/browse.rs:419-453 | Reclaims the box, answers Found with the instance's data iff the status is 0 and there is an instance, else a failure, then frees the instance. |
| Windows.Backend.ResolveOnce | src/windows/browse.rs:151-193 | Fails at once iff the name is unfit or the OS refuses; otherwise the OS owes the one box leaked for it. |
| Windows.Backend.Receive | src/windows/browse.rs:195-202 | Once its box is completed the caller gets the one result sent for it, the right one for the OS's status and instance. |
| Windows.Backend.ResolveOnceCallback | src/windows/browse.rs:205-237 | Reclaims the box, frees the instance, then answers Found with its data iff the status is 0 and there is one, else a failure. |
| Windows.Backend.DropEntry | src/windows/browse.rs:38-62 | An entry's browse is cancelled before its context is freed. |
| Windows.Backend.DropBrowseGuard | src/windows/browse.rs:32-62 | Every entry is dropped, and the registry is empty. |
| Windows.Backend.Start | src/windows/browse.rs:86-128 | The guard lives iff the first browse started. |
| Windows.Browse | src/windows/browse.rs:86-128 | Whatever is asked for and whatever happens before and after the guard's drop: the first context is as requested and others only its children; everything torn down once, every record read, one attempt per name heard, every error reported, every resolve answered or still with the OS. |

## Left out

- Foreign memory: C and wide strings, record and socket-address layouts, pointer casts and byte order; replies arrive decoded, and pointers are indices whose every use is shown to be valid.
- D-Bus: proxies, match rules and connection set-up; the browse tasks are fed an arbitrary sequence of messages, and set-up fails or not as it likes.
- Real time: the poll interval, resolve and address-lookup timeouts and the one-shot timeout are choices of the environment; no wall-clock bound is claimed.
- Order between Found and Removed of one instance: resolves run concurrently, and the code promises none.
- Error texts, logging, builders, `socket_addrs` and the mapping of requested interface indices on Linux: no logic worth proving.
- Key text: TXT keys stay bytes, and their lossy UTF-8 decoding is a parameter of the lookup, so records with different keys may look up alike, as in the code.
- Windows callbacks overlapping each other or the guard's teardown, and mutex poisoning: callbacks are atomic steps. The OS is taken to complete exactly the resolves it accepted, once each.
- Windows callbacks and completions arriving after the OS accepted a browse or resolve but before `start_browse`, `start_resolve` or `resolve_once` has done its next step: the machine takes them up only once that step is done.
- Runtime shutdown and panicking tasks: either ends a macOS resolve or a Linux task without its event and without an abort, which the machines exclude.
- Delivery to a dropped receiver: sends then fail and the events are lost; events are counted when handed to the channel.
- Windows TXT and address decoding in `read_txt` and `build_service`: the instance arrives with both decoded, and only its identity and host name are rewritten.
- macOS `resolve_once`: the same two queries as a resolve task, whose result is returned instead of sent.
- Linux `resolve_once` and the contents of a resolved service: one D-Bus call passed through.
- A Windows child browse that cannot be started is discarded silently by the code, so no event conservation is claimed there.
- Port numbers and lengths are unbounded; the code does no arithmetic on them that could wrap.
- PumpSystem.StopResponse: counts steps, not time, because the daemon decides how long a dispatch is.
- Tasks.ResolveAndEmit: does not relate a found service's name to the one asked for, because Avahi reports it.
