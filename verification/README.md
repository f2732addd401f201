# Verification of wx-cache-proxy

A Dafny model of the parts of wx-cache-proxy in which most can go wrong, with proofs about all inputs, all runs and
all reachable states. `dafny verify dfyconfig.toml` checks the whole project.

**The request pipeline** (`Pipeline*.dfy`, `ProxyCore.dfy`). Requests sit in a client's queue and a server
connection's queue, with the marks `done`, `error`, `swallow`, `noreply`, `fdone`, `ferror` and the links of a split
request (a *vector*: an owner and its fragments). Handlers are functions on a state; each keeps one invariant,
`PipelineInv.Inv`. `PipelineRuns` runs any sequence of events from the empty proxy and states the theorems.
`PipelineEffects` says what each event does to the requests it concerns, `PipelineMarks` that no mark is ever cleared,
`PipelineOrder` that a server connection is first in, first out, `PipelineDue` that timeouts close nothing too early,
`PipelineCounts` and `PipelineStuck` what the count of done fragments means and when a vector is answered,
`PipelineBytes` how a partly written reply goes on, `PipelineErrors` what becomes of a failed vector's error, and
`PipelineInputs` gives runs in which things go wrong. `ProxyCore` is the code: a class whose methods, with the
loops and scans of the source, are proved to leave the state the functions describe. The state carries a history
(what arrived, was sent, was recycled, what the backends answered) that no handler reads, except for the list of a
vector's fragments. A message is named by its incarnation, so that a recycled message is one that no longer exists.

**The timeout tree** (`Rb*.dfy`). The red-black tree with parent links, a sentinel and equal keys, in place, proved
against a stable sorted queue. A tree and a position in it are a shape and a context; the parent of the root is
left unconstrained, as the code leaves it stale.

**Servers** (`Ring`, `Ejection`, `EjectionRuns`, `ServerPool`). The ketama ring and the modula table, the share of
each server, ejection and retry over time, and the arrays that hold the points.

**Statistics** (`Stats*.dfy`). The two threads step by step under any interleaving; the code that runs each side
through; the pre-sized text buffer.

**Bytes and text** (`SendChain`, `Md5`, `Sds*.dfy`, `Json*.dfy`, `Conf*.dfy`). Scatter/gather sending, MD5 streaming,
quoting and splitting, JSON printing and parsing, and the two passes over the configuration. Besides the round trips,
`SdsSpell` and `JsonSpell` say of every way to write a text what it is read as.

`Basics`, `Seqs` and `Bytes` hold what the others share.

## Findings

Properties the code does not have as one would expect, each with an input and with the exact condition under which
it does.

- Statistics: both flags can be 0 while `sum` is stale, between the two flag writes of `stats_swap`
  (src/nc_stats.c:992-1024). `StatsThreads.StaleSum` is an interleaving; `StatsThreads.ExactWhenIdle` says exactly
  when the sum is right.
- Statistics text: without any pool the text ends in `,}` (src/nc_stats.c:708-766). `StatsOutput.MakeResponse` states
  both cases. The input cannot arise, since a configuration without pools is refused (src/nc_conf.c:1297-1301).
- A vector one of whose fragments finds no server is never answered, and neither is anything behind it, until its
  client closes: `req_forward_error` does not count the fragment as done, `server_close` does (src/nc_request.c:770-797,
  src/nc_server.c:388-390). `PipelineInputs.StuckRun` is the input, `PipelineStuck.NeverAnswered` the consequence, and
  `PipelineStuck.AnsweredExactlyIf` the exact condition, which can be read off the routes.
- A failed vector's error is reported once: if a write gets none of the error reply through, `rsp_send_next` makes the
  reply again (src/nc_response.c:340-360), the fragments are gone, and the client gets an unknown error.
  `PipelineInputs.LostErrorRun` is a run, `PipelineErrors.ErrorLostOnRetry` covers every state in which such a vector is
  next, and `PipelineErrors.ErrorNamed` is the exact condition.
- An error reply that was written in part starts over, so that the client gets its first bytes twice: the same path
  frees the half-written reply. `PipelineInputs.HalfWrittenRun` is a run, `PipelineBytes.HalfWrittenError` covers every
  state in which a failed request is next, single requests included, and `PipelineBytes.ResumesExactlyIf` is the exact
  condition: `req_error` says no.
- JSON: a tree nested deeper than 1000 is printed and not parsed back; `JsonTrip.NestedRoundTrip` is the input, and
  `JsonTrip.JsonRoundTrip` an equivalence.

One more fact about the code shapes the statements.

- `msg_send_chain` releases empty replies even while an earlier reply is still being written
  (src/nc_message.c:859-864), as `PipelineEffects.WriteReleases` states. `PipelineRuns.RepliesInOrder` is therefore about
  the replies that have bytes; empty ones are those of fragments.

## Model

| member | source | states |
|---|---|---|
| `PipelineRuns.RepliesInOrder` | src/nc_response.c:304-390 | after every run, what a client was sent, followed by what its queue holds, is its reply-expecting requests in the order they arrived; none skipped, doubled or reordered; a closed client was sent a prefix. Fragments are left out on both sides |
| `PipelineRuns.RepliesMatch` | src/nc_response.c:143-302 | after every run, a written reply that is not an error is the one the backend gave to that very request; the reply of a split request consists of the answers to its own fragments in their order; only requests that were not forwarded are answered by the proxy |
| `PipelineRuns.OneOwner` | src/nc_server.c:344-463 | after every run, a live request that is not done is in the queues of exactly one server connection and once; a done one is in none; it is in its client's queue exactly unless it is swallowed or expects no reply, and then it is in no client queue |
| `PipelineRuns.NothingRecycledIsNamed` | src/nc_client.c:122-189 | after every run, no client queue, server queue or timeout entry names a recycled request |
| `PipelineRuns.RecycledOnce` | src/nc_request.c:341-361 | after every run, every request there ever was is either live, or recycled exactly once |
| `PipelineRuns.LatchHonest` | src/nc_request.c:372-462 | after every run, if one member of a vector in a client queue is marked fdone, all members in the queue are done and marked; no vector is coalesced twice |
| `PipelineRuns.CoalescedOnce` | src/nc_request.c:372-462 | after every run, post_coalesce was called exactly once for a split request in a client queue that is marked fdone, and never for one that is not |
| `PipelineRuns.CoalescedBeforeReply` | src/nc_response.c:304-390 | after every run, post_coalesce was called exactly once for every split request that has been replied to |
| `PipelineRuns.VectorsContiguous` | src/nc_request.c:998-1011 | after every run, whatever stands between two members of a vector in a client queue is a member of it |
| `PipelineRuns.NoneWaitsTooLong` | src/nc_core.c:426-469 | after every run with timeouts on, once core_timeout returns, every request that still waits has an entry with the open connection that holds it and a deadline later than every clock reading taken |
| `PipelineRuns.TimersNameTheirConnection` | src/nc_message.c:152-192 | after every run, every timeout entry is a live request, and one that is not done is in a queue of the open connection that the entry names, so that no recycled connection is closed |
| `PipelineMarks.MarksStay` | src/nc_request.c:372-545 | between any two states of a run, a request live in both is the same one (client, vector, owner, size) and no mark it had was cleared: done, error, swallow, fdone, ferror; its count of done fragments never falls |
| `PipelineMarks.GoneForGood` | src/nc_request.c:341-361 | a recycled request never comes back as itself, in any continuation of a run |
| `PipelineOrder.FirstInFirstOut` | src/nc_request.c:547-649 | take the reply-expecting requests a server connection holds at any point of any run, oldest first, and let the run go on: those the backend has answered are the first m of them for some m; the others are all still there in their order, or none of them is, the connection having closed |
| `PipelineOrder.OrderKept` | src/nc_request.c:1065-1091 | between any two states of a run, the requests a connection holds in both, written or not, stand in the same order |
| `PipelineOrder.StepTurn` | src/nc_response.c:143-302 | every event takes from a connection nothing, the request that has waited longest, which is then answered, one that expects no reply, or all of them, none of which is answered any more |
| `PipelineDue.OnlyOverdueClosed` | src/nc_core.c:426-469 | after every run, core_timeout closes a connection only if a request in its queues has a timeout no later than a clock reading it took |
| `PipelineEffects.AnswerDelivered` | src/nc_response.c:143-302 | a response goes to the request that has waited longest on its connection: it is done, holds that response, and its timeout is cancelled; if it was swallowed it is recycled instead; nothing else leaves a queue |
| `PipelineEffects.SentOut` | src/nc_request.c:1065-1091 | the first request not yet sent leaves the in queue; if a reply is expected the backend has it behind those it had, and it stands behind them in the out queue, records and timeouts unchanged; otherwise it is recycled; no other connection changes |
| `PipelineEffects.CloseResolves` | src/nc_server.c:344-463 | a closing connection fails every request it holds with the given error, recycles those that are swallowed or expect no reply, and leaves all other requests but vector owners as they were |
| `PipelineEffects.ExpiredFails` | src/nc_core.c:426-469 | an expired entry's request is in a queue of the connection the entry names, and every request of that connection is failed with ETIMEDOUT or recycled |
| `PipelineEffects.CloseSwallows` | src/nc_client.c:122-189 | a closing client's done requests are recycled with their timeouts, the others are marked swallow and nothing else in them changes, and no other request changes |
| `PipelineEffects.SingleReceived` | src/nc_request.c:933-1015 | a request that is not split comes last in its client's queue (unless no reply is expected) and last in a server's, behind a handshake if one is due, with its timeout set; or it fails on the spot; without reply it is then recycled |
| `PipelineEffects.VectorReceived` | src/nc_request.c:998-1011 | a split request enters its client's queue followed by its fragments, one per route and in their order, each of them sent where its route says or failed |
| `PipelineEffects.Forwarded` | src/nc_request.c:808-866 | a forwarded request, and the handshake ahead of it, are appended to the in queue; its timeout names the connection and the deadline |
| `PipelineEffects.ForwardFailed` | src/nc_request.c:770-797 | a request that can be sent nowhere is done, failed and queued for its client; one without reply is recycled |
| `PipelineEffects.CollectsAll` | src/nc_response.c:304-360 | replies are collected until the limit, the end of the queue, or a request for which req_done says no |
| `PipelineEffects.WriteReleases` | src/nc_response.c:362-390 | of the replies collected, those written are recorded as sent in order and their requests leave the queue, with those whose reply is empty; the rest of the queue stays in order |
| `PipelineErrors.ErrorNamed` | src/nc_response.c:46-86 | for a failed vector, rsp_make_error names an error if and only if a fragment with an error code still stands behind the owner; it is the first such fragment's |
| `PipelineErrors.ErrorForgotten` | src/nc_response.c:46-86 | called again for the same vector, rsp_make_error always reports error 0 |
| `PipelineErrors.ErrorLostOnRetry` | src/nc_response.c:304-360 | from every state in which a failed vector is next: a write that gets nothing through makes the reply with the first fragment's error, a second such write makes that of an unknown error |
| `PipelineServer.FirstTimer` | src/nc_core.c:426-469 | the head of the timeout tree is a live request; if it is not done the entry names the open connection that holds it |
| `PipelineServer.OwnerAlive` | src/nc_response.c:208-221 | the owner of a fragment whose answer is awaited and not swallowed is live, so that it may be dereferenced |
| `PipelineServer.NothingOverdue` | src/nc_core.c:426-469 | when core_timeout returns no entry is left with a deadline at or before a clock reading it took |
| `PipelineStuck.DoneMeans` | src/nc_request.c:372-462 | after every run, nfrag_done of an unanswered vector's owner is the number of its fragments that found a server and are done, nfrag the number of all; req_done says yes for the owner if and only if that is all of them |
| `PipelineStuck.RoutesDecide` | src/nc_request.c:770-797 | the fragments of a new vector that are never counted are exactly those without a server when it came in |
| `PipelineStuck.AnsweredExactlyIf` | src/nc_request.c:372-462 | in every continuation in which a vector is unanswered, req_done says yes for its owner if and only if every fragment had a route to a server when it came in, and is done |
| `PipelineStuck.NeverAnswered` | src/nc_request.c:770-797 | a vector with a fragment that req_forward_error failed is, in every continuation of every run, never coalesced and never replied to; it stays in its client's queue, and everything the client is ever sent arrived before it |
| `PipelineInputs.StuckRun` | src/nc_request.c:770-797 | after every run, a request split into one fragment without a server: owner and fragment are done, and req_done says no |
| `PipelineBytes.OnlyFirstPartly` | src/nc_message.c:866-886 | after every run, only of the first reply in a client's queue some bytes may have been written |
| `PipelineBytes.StopsInside` | src/nc_message.c:774-923 | a write that stops inside a reply: that reply, the first with bytes left over, comes first in the queue, and its offset grows by what was written of it |
| `PipelineBytes.ResumesExactlyIf` | src/nc_response.c:304-360 | for a reply of which bytes were written, rsp_send_next goes on behind them if and only if req_error says no; otherwise the reply starts at byte 0 |
| `PipelineBytes.HalfWrittenError` | src/nc_response.c:340-353 | from every state in which a failed request is next: a write stops inside its error reply, and the next one starts that reply over |
| `PipelineInputs.HalfWrittenRun` | src/nc_response.c:340-353 | a run from the empty proxy that does this |
| `PipelineInputs.LostErrorRun` | src/nc_response.c:46-86 | a run from the empty proxy in which a failed vector is first answered with its fragment's error and then with none |
| `ProxyCore.ScanDone` | src/nc_request.c:372-462 | the two neighbour scans of req_done are equivalent to "all members of the vector in the queue are done" |
| `ProxyCore.ScanError` | src/nc_request.c:472-545 | the two neighbour scans of req_error are equivalent to "some member of the vector in the queue failed" |
| `ProxyCore.TmoInsert` | src/nc_message.c:152-174 | the entry is placed behind every entry with no later deadline, as Schedule says |
| `ProxyCore.TmoDelete` | src/nc_message.c:176-192 | the entry of the request goes, and a request without entry is left alone, as Cancel says |
| `ProxyCore.Core.ReqDone` | src/nc_request.c:372-462 | the code leaves exactly the state of the function the theorems speak of, and its answer: scans, marks and post_coalesce |
| `ProxyCore.Core.ReqError` | src/nc_request.c:472-545 | the answer is that of the scan over the vector; the first time a vector is found failed all members get ferror |
| `ProxyCore.Core.ReqPut` | src/nc_request.c:341-361 | the request is recycled and its timeout cancelled |
| `ProxyCore.Core.RspMakeError` | src/nc_response.c:46-86 | the code leaves the state of MakeError: fragments behind the owner recycled, the first error reported |
| `ProxyCore.Core.RspSendNext` | src/nc_response.c:304-360 | the code leaves the state of Pick, and says yes exactly when a reply is ready |
| `ProxyCore.Core.RspSendDone` | src/nc_response.c:362-390 | the request is unlinked from its client and recycled, its reply recorded |
| `ProxyCore.Core.SendReplies` | src/nc_message.c:774-923 | collecting with rsp_send_next and finishing with rsp_send_done leaves the state of ClientSend |
| `ProxyCore.Core.Progress` | src/nc_message.c:866-886 | the first reply's offset grows by the bytes written of it |
| `ProxyCore.Core.ClientClose` | src/nc_client.c:122-189 | draining the client's queue leaves the state of ClientClose |
| `ProxyCore.Core.Enqueue` | src/nc_request.c:547-649 | the enqueue handlers and the timeout leave the state of Add |
| `ProxyCore.Core.ReqForward` | src/nc_request.c:808-866 | the code leaves the state of Forward, failing requests included |
| `ProxyCore.Core.RecvSingle` | src/nc_request.c:933-1015 | the code leaves the state of RecvSingle |
| `ProxyCore.Core.RecvVector` | src/nc_request.c:998-1011 | owner and fragments are enqueued as RecvVector says |
| `ProxyCore.Core.ReqSendDone` | src/nc_request.c:1065-1091 | the code leaves the state of ServerSend, which SentOut describes and on which FirstInFirstOut rests |
| `ProxyCore.Core.RspRecvDone` | src/nc_response.c:143-302 | rsp_filter and rsp_forward leave the state of Respond |
| `ProxyCore.Core.ServerClose` | src/nc_server.c:344-463 | the two draining loops leave the state of CloseServer |
| `ProxyCore.Core.CoreTimeout` | src/nc_core.c:426-469 | the loop leaves the state of Timeouts and takes as many clock readings |
| `RbInsert.Insert` | src/nc_rbtree.c:121-201 | for every valid tree and new node: the tree stays a red-black tree with correct links (black root, no red-red edge, equal black heights, non-root parents), the in-order contents are the old ones with the node behind every key not greater, and the loops terminate |
| `RbDelete.Delete` | src/nc_rbtree.c:203-344 | for every valid tree and node in it: the tree stays a red-black tree with correct links, its contents are the old ones without that node, the node is reset; all substitution and fixup cases |
| `RbDelete.Min` | src/nc_rbtree.c:40-65 | the head of the in-order contents, or null for an empty tree |
| `RbFixup.Fixup` | src/nc_rbtree.c:281-343 | a tree that lacks one black node below a given place becomes a red-black tree with the same contents; the loop terminates |
| `RbInsert.Rebalance` | src/nc_rbtree.c:157-200 | a tree whose only fault is a red node below a red one, or a red root, becomes a red-black tree with the same contents |
| `RbInsert.Search` | src/nc_rbtree.c:139-149 | the descent ends at the place before which no key is greater and behind which all are |
| `RbSteps.Rotate` | src/nc_rbtree.c:67-119 | both rotations, at any node: links are those of the rotated tree and the in-order contents are the same |
| `RbShape.GoodPlug` | src/nc_rbtree.c:121-344 | a tree is red-black if and only if a subtree and its surroundings fit together |
| `RbTimers.RunAll` | src/nc_message.c:152-192 | any sequence of insertions and deletions on an empty tree leaves a valid tree whose contents are in order of deadline and, for equal deadlines, of arrival |
| `RbTimers.TmoInsert` | src/nc_message.c:152-174 | without a timeout nothing changes; otherwise the node is enqueued with deadline and connection; nodes outside the tree have no data |
| `RbTimers.TmoDelete` | src/nc_message.c:176-192 | the node leaves the queue, and a node that is not in the tree, told by its missing data, is left alone |
| `RbTimers.TmoMin` | src/nc_message.c:139-150 | after such a run, nobody has an earlier deadline than the result, and nobody with the same deadline came before |
| `RbRuns.InsertIsSchedule` | src/nc_message.c:152-174 | insertion into the tree's queue is the insertion the pipeline model schedules timeouts with |
| `RbRuns.DeleteIsCancel` | src/nc_message.c:176-192 | deletion from the tree's queue is the cancellation of the pipeline model |
| `Ejection.EjectionMovesOnlyItsKeys` | src/hashkit/nc_ketama.c:148-250 | in a ketama pool of equal weights with distinct point values, dropping one server at a rebuild moves no key except those that went to it |
| `Ejection.EjectionSafety` | src/nc_server.c:584-746 | after every run of failures, recoveries, updates and lookups, a lookup picks a server with next_retry 0, or fails, and it fails exactly when none was live at the last rebuild and next_rebuild has not passed |
| `Ejection.RebuildRevives` | src/hashkit/nc_ketama.c:84-118 | a rebuild strictly after next_rebuild leaves at least one live server |
| `Ejection.RingLive` | src/hashkit/nc_ketama.c:148-196 | a new ring is not empty and names only live servers |
| `Ejection.ModulaShares` | src/hashkit/nc_modula.c:98-143 | every live server has exactly as many slots as it weighs, every other server none |
| `Ring.PointsFit` | src/hashkit/nc_ketama.c:123-196 | for all weights the points written never exceed 160 per live server, for which room is made |
| `Ring.PointsExist` | src/hashkit/nc_ketama.c:148-196 | whenever a server is live there are at least 160 points |
| `Ring.EqualWeights` | src/hashkit/nc_ketama.c:148-170 | with equal weights each live server has 160 points however many are live |
| `ServerPool.KetamaDispatch` | src/hashkit/nc_ketama.c:225-250 | the binary search gives the server of the first point not below the hash, or of point 0 if there is none |
| `ServerPool.ModulaDispatch` | src/hashkit/nc_modula.c:145-156 | the slot at the hash modulo the number of slots |
| `ServerPool.SortContinuum` | src/hashkit/nc_ketama.c:195-196 | the first n points become the sorted sequence of which Ring.SortIsRing speaks |
| `Ring.SortIsRing` | src/hashkit/nc_ketama.c:195-196 | that sequence is in order of point values and a permutation of the points written |
| `ServerPool.WritePoints` | src/hashkit/nc_ketama.c:148-196 | every write is inside the allocation; the array holds exactly the points of the live servers, as many for each as KetamaShares says |
| `EjectionRuns.KetamaShares` | src/hashkit/nc_ketama.c:148-196 | on a new ring a live server of weight w, among n live ones of a total weight, has four points for each unit of the whole part of 40 n w / total, up to the epsilon of the code; a server that is not live has none |
| `EjectionRuns.RebuiltOnRing` | src/hashkit/nc_ketama.c:84-196 | a rebuild that finds a live server puts a server on the ring if and only if its retry time has come and its share is a point or more |
| `ServerPool.WriteAllSlots` | src/hashkit/nc_modula.c:98-143 | every write is inside the allocation; the array holds exactly the slots of the live servers |
| `ServerPool.ServerPool.CountLive` | src/hashkit/nc_ketama.c:84-118 | live servers are revived and counted, with their total weight and the earliest retry time as the next rebuild |
| `ServerPool.ServerPool.Grow` | src/hashkit/nc_ketama.c:123-143 | afterwards the requested number of servers fits, and the continuum has not shrunk |
| `ServerPool.ServerPool.Rebuild` | src/hashkit/nc_ketama.c:56-223 | the pool becomes the one Rebuilt describes, on which the ejection theorems rest |
| `ServerPool.ServerPool.ServerFailure` | src/nc_server.c:265-310 | the code leaves the state of Failure, which FailuresCounted and EjectedExactly describe |
| `EjectionRuns.FailuresCounted` | src/nc_server.c:265-310 | after every run, the failures counted for a server are those since it was last ejected or last answered, told from the events |
| `EjectionRuns.EjectedExactly` | src/nc_server.c:265-310 | after every run, a failure below the limit changes neither the ring nor any retry time; the one that reaches it sets the retry time to the clock and the timeout and takes the server off the ring, unless the second reading is that late already |
| `EjectionRuns.StaysOut` | src/nc_server.c:584-746 | while the clock has not reached its retry time, no lookup picks an ejected server, whatever happens to the others |
| `EjectionRuns.BackInTime` | src/nc_server.c:584-627 | after every run, a lookup later than the retry time of a server has it back in service |
| `ServerPool.ServerPool.ServerOk` | src/nc_server.c:567-582 | the failure count and the retry time are cleared |
| `ServerPool.ServerPool.PoolUpdate` | src/nc_server.c:584-627 | the rebuild is run exactly when Update says, and an error is reported exactly when it does |
| `ServerPool.ServerPool.PoolServer` | src/nc_server.c:698-746 | the chosen server, or none, and the new pool are those of Pick |
| `StatsThreads.Conservation` | src/nc_stats.c:640-706 | under every interleaving of the two threads, sum plus what shadow still has to add plus current is, for a counter or gauge, the sum of the values given by the events that took effect; for a time stamp the newest of the three is the last one given |
| `StatsThreads.LedgerShows` | src/nc_stats.c:1026-1122 | after every run, what is booked for a metric is what the recording events say: their sum, or the last of them |
| `StatsThreads.ExactWhenIdle` | src/nc_stats.c:992-1024 | with both flags 0, sum is exact unless the swap stands between clearing updated and setting aggregate; there a counter is exact if and only if its shadow is 0, and a time stamp if and only if its shadow is 0 or equals it |
| `StatsThreads.StaleSum` | src/nc_stats.c:992-1024 | an interleaving after which both flags are 0 and a recorded increment is missing from sum |
| `StatsBuffers.AggregateIsRun` | src/nc_stats.c:640-706 | running stats_aggregate through is the steps of the aggregator thread, one after the other |
| `StatsBuffers.SwapIsRun` | src/nc_stats.c:992-1024 | running stats_swap through is the steps of the main thread, one after the other |
| `StatsBuffers.Buffers.Add` | src/nc_stats.c:1026-1122 | recording leaves the state of the two steps of the thread model, whose meaning LedgerShows tells from the events |
| `StatsBuffers.Buffers.Aggregate` | src/nc_stats.c:640-706 | the loops leave exactly the aggregated state: counters and gauges added, time stamps taken over when not 0 |
| `StatsBuffers.Buffers.Swap` | src/nc_stats.c:992-1024 | the arrays change roles and the new current is reset, only when there is something new and nothing to aggregate |
| `StatsOutput.MakeResponse` | src/nc_stats.c:708-766 | with the buffer of stats_create_buf it never fails, for any pools, servers and 64-bit values; with at least one pool the text is that of a recursive printer and a newline; with none a comma is left before the brace |
| `StatsOutput.MemberFits` | src/nc_stats.c:329-426 | what is written for a member and its separator is at most its share of the computed size |
| `StatsOutput.OpenIs` | src/nc_stats.c:438-620 | writing each member with a separator gives the wanted text and one separator, to be overwritten |
| `StatsOutput.DecimalShort` | src/nc_stats.c:329-426 | no 64-bit number takes more than 20 characters |
| `StatsOutput.DecimalRead` | src/nc_stats.c:461-482 | what is printed for a number, read in base ten, is the number |
| `StatsOutput.Buffer.EndNesting` | src/nc_stats.c:585-620 | the trailing comma becomes a brace and a new comma follows |
| `StatsOutput.Buffer.Footer` | src/nc_stats.c:542-561 | the last byte becomes a brace and a newline follows |
| `StatsOutput.Buffer.Write` | src/nc_stats.c:438-482 | all members are appended with their separators within the computed size |
| `SendChain.Send` | src/nc_message.c:774-923 | for every queue, buffer layout and result of the system call: what was written followed by what is pending is what was pending before; send_done is called on exactly the collected messages with nothing left; messages behind them are unchanged; collecting stops only at the end, at 128 vectors or at the limit |
| `SendChain.Gather` | src/nc_message.c:801-836 | the vector is a prefix of the collected bytes, and all of them unless a limit was reached |
| `SendChain.Settle` | src/nc_message.c:866-886 | exactly the given bytes are taken off the buffers of a message, and it is complete exactly if they cover it |
| `Md5.HashParts` | src/hashkit/nc_md5.c:196-294 | for every message and every split of it into updates the result is the fold of the block function over the padded message (sections 3.1 to 3.5 of RFC 1321) |
| `Md5.Context.Update` | src/hashkit/nc_md5.c:208-242 | the context stands for the message extended by the data |
| `Md5.Context.Final` | src/hashkit/nc_md5.c:244-294 | the result is the hash of the whole message |
| `Md5.CountMore` | src/hashkit/nc_md5.c:214-218 | the two words hold the byte count modulo 2^61 through the 29-bit carry, for every size |
| `Md5.CountBits` | src/hashkit/nc_md5.c:264-272 | the eight length bytes written are the bit count modulo 2^64, lowest first |
| `Md5.PaddingMeans` | src/hashkit/nc_md5.c:244-272 | the padding is a one bit, the fewest zeros that complete a block, and the number of bits modulo 2^64, lowest byte first (sections 3.1 and 3.2 of RFC 1321) |
| `Md5.InitialDigest` | src/hashkit/nc_md5.c:196-294 | blocks that change nothing leave the state of section 3.3 of RFC 1321, put out lowest byte first |
| `Sds.QuotingRoundTrip` | src/etcd/sds.c:552-735 | for every list of byte strings, NUL, quotes and backslashes included, the split of the quoted forms joined with blanks is that list |
| `Sds.QuotedLineIsString` | src/etcd/sds.c:552-575 | such a line is printable whatever bytes the strings hold; it has no zero byte, so it is the whole of a C string |
| `SdsSpell.SpellingRoundTrip` | src/etcd/sds.c:627-735 | for every list of strings, each written as a bare word, in double or in single quotes as it can be, the split of them joined with blanks is that list |
| `SdsSpell.AnyEscapes` | src/etcd/sds.c:627-735 | a string in double quotes, each byte written in any of its ways (itself, by name, behind a backslash, by value in digits of either case), is read as the string |
| `SdsSpell.EscapeStands` | src/etcd/sds.c:552-575 | what sdscatrepr writes for a byte is one of these ways |
| `Sds.CatRepr` | src/etcd/sds.c:552-575 | the code appends the quoted form |
| `Sds.SplitArgs` | src/etcd/sds.c:627-735 | the code computes the argument list, and fails exactly when quotes are unbalanced or followed by text |
| `Sds.SplitRoundTrip` | src/etcd/sds.c:470-517 | joining what sdssplitlen returns gives the string back, for every string and non-empty separator |
| `Sds.TokensFree` | src/etcd/sds.c:470-517 | no token contains the separator |
| `Sds.SplitLen` | src/etcd/sds.c:470-517 | the code computes the tokens; an empty separator is refused and an empty string has none |
| `Sds.JoinSds` | src/etcd/sds.c:774-783 | the code computes the joined string |
| `JsonTrip.JsonRoundTrip` | src/cJSON.c:1222-1727 | for every tree of null, booleans, NUL-free strings, arrays and objects, parsing its print, formatted or not, gives the tree if and only if it is nested at most 1000 deep (sections 4, 5 and 7 of RFC 8259) |
| `JsonTrip.NestedRoundTrip` | src/cJSON.c:1351-1442 | n arrays inside each other are printed and parsed back if and only if n is at most 1000 |
| `JsonString.StringRoundTrip` | src/cJSON.c:708-956 | a printed string, followed by anything, is parsed as the string, and what follows is left |
| `JsonCode.CountIsLength` | src/cJSON.c:837-900 | the escape count made beforehand is the number of bytes emitted |
| `JsonPrint.Printer.Value` | src/cJSON.c:1277-1348 | print_value over the growing buffer leaves exactly Print behind what was there, up to the terminating zero; it fails only if the text does not fit the limit |
| `JsonPrint.Printer.ArrayHere` | src/cJSON.c:1445-1504 | the same for arrays; the loop and its commas leave exactly the printed elements |
| `JsonPrint.Printer.ObjectHere` | src/cJSON.c:1616-1727 | the same for objects, formatted or not |
| `JsonPrint.Printer.StringHere` | src/cJSON.c:837-956 | the same for strings: the size counted beforehand is what is written |
| `JsonPrint.Printer.Ensure` | src/cJSON.c:383-468 | the room is there or made, with the text so far kept; it fails exactly if the size is beyond the limit or must not grow |
| `JsonPrint.Printer.UpdateOffset` | src/cJSON.c:471-483 | the offset moves to the terminating zero: because no text contains a zero, to the end of what was printed |
| `JsonPrint.PrintText` | src/cJSON.c:1097-1152 | the result is exactly the printed text and a zero, whenever it fits |
| `JsonPrint.PrintAndParse` | src/cJSON.c:1010-1152 | printing by the code and parsing by the code gives the tree back if and only if it is nested at most 1000 deep |
| `JsonPrint.PrintNoZero` | src/cJSON.c:1277-1727 | no printed text contains a zero byte, on which update_offset relies |
| `JsonCode.ParseText` | src/cJSON.c:1010-1087 | the parser as code computes the parse the round trip speaks of, for every input |
| `JsonCode.Parser.Value` | src/cJSON.c:1222-1274 | offset, depth and result are those of the parse; depth is restored on success |
| `JsonCode.Parser.ArrayHere` | src/cJSON.c:1351-1442 | the same for arrays, with the nesting limit and every failure |
| `JsonCode.Parser.ObjectHere` | src/cJSON.c:1507-1613 | the same for objects |
| `JsonCode.Parser.ParseStringHere` | src/cJSON.c:708-834 | the same for strings; what their escapes and literals mean is in StringSpelled |
| `JsonSpell.TextMeans` | src/cJSON.c:1010-1613 | every JSON text of words, strings, arrays and objects, with any white space and any escapes of RFC 8259, is parsed to what it means if and only if it is nested at most 1000 deep, whatever follows it |
| `JsonSpell.StringSpelled` | src/cJSON.c:708-834 | a string written with any mixture of bytes, two-character escapes and literals is parsed to the bytes they stand for |
| `JsonUnicode.LiteralsAreCharacters` | src/cJSON.c:587-705 | a string of literals, one for a character below 65536 and a surrogate pair for the others, is parsed to bytes that, read as UTF-8, are the characters |
| `JsonUnicode.PointBack` | src/cJSON.c:656-690 | reading the bytes written for a code point as UTF-8 gives the code point, for all below 0x110000 |
| `JsonUnicode.HalfPairRefused` | src/cJSON.c:609-640 | half a surrogate pair alone is refused |
| `JsonCode.Parser.SkipWhitespace` | src/cJSON.c:973-991 | the offset moves over white space and stays inside the text |
| `ConfCheck.AcceptsConfigurations` | src/nc_conf.c:972-1112 | the event stream of a tree is accepted if and only if the tree is a mapping from scalars to pools, each a mapping of scalars to scalars and exactly one sequence of scalars |
| `ConfParse.ParsesConfigurations` | src/nc_conf.c:621-722 | an accepted tree is parsed without popping an empty stack or failing an assertion, whatever the handler answers, even depending on earlier calls; it ends at depth 0 with no arguments after one call per pool name, pair and element in order, or fails at the first empty scalar or refused call |
| `ConfParse.OutcomeWell` | src/nc_conf.c:497-536 | all goes well if and only if no scalar is empty and the handler takes every call given those before it |
| `ConfCode.ValidateStructure` | src/nc_conf.c:972-1112 | the loop accepts exactly the streams the automaton accepts |
| `ConfCode.Parser.Core` | src/nc_conf.c:621-722 | the recursion leaves exactly the state of the parsing automaton, success and failure alike |

## Left out

- Protocol parsers, and the fragment, coalesce and authentication handlers, whose bodies are elsewhere: they are
  abstract. A request is a single one or a vector with given routes; `pre_coalesce` may mark a fragment failed; a
  handshake is a swallowed request ahead of the first one.
- Backends answer each connection in order; a response that no request waits for is not an event.
- Allocation and event registration succeed, and the clock does not run backwards.
- The path on which fragmentation itself fails and the request is forwarded once more (src/nc_request.c:983-996).
- Requests that are only partly received, and the messages being parsed.
- One timeout for all pools, where the code looks up that of the connection's pool.
- Liveness: nothing says that a request whose answer may come is answered eventually.
- Logging, tracing and the free lists as such; `req_put` without its log line.
- Sockets, event loops, accepting connections, signals and configuration reload.
- `server_conn`'s rotation among the connections of a server: the route says which connection is taken.
- Float rounding in `ketama_update` (exact reals), 32-bit wrap-around of total weights, the point hash (any function),
  the name kept in a point, hash tags, and DIST_RANDOM.
- ServerPool.SortContinuum: qsort is modelled by a stable insertion sort; the ring theorems hold for any sorted
  permutation.
- RbSteps.Rotate: the two rotations are one method with a side.
- 64-bit wrap-around of the statistics counters.
- StatsOutput.Buffer.Write: the loops over pools, servers and metrics are one recursion over a tree of members, and
  every inner object has at least one member.
- SendChain.Send: a message that is not finished keeps its length, and it is empty exactly if the length is 0, as the
  code relies on; the largest write is a parameter.
- The MD5 block function is a parameter.
- Numbers, raw items, references, locale and allocator hooks in JSON.
- JsonCode.ParseText: a text with a number is a parse failure in the model, where the code would parse the number.
- JsonCode.Parser.Value: the number branch is a failure, for the same reason.
- JsonPrint.Printer.Value: numbers and raw items are not among the values; allocation succeeds below the limit.
- ConfCode.ValidateStructure: a mapping that ends at depth 0, which no tree produces, is an error in the model, while
  the code would write below its array.
- YAML scanning and the individual configuration setters.
- `sdscatlen` and the growth of buffers, base64, the other hash functions, `nc_array.c` and the list of messages on
  free lists: easier than what is here.
- `mbuf_split`, `msg_repair` and `msg_parsed`.
