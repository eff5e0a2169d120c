# dahua-p2p: a verified model

A Dafny model of dahua-p2p, which carries RTSP over PTCP, a "phony TCP" on one UDP socket.
`dafny verify dfyconfig.toml` checks the project.

Concurrent parts are transition systems: a step is one critical section or one channel operation,
a run is any interleaving of steps, and theorems speak of every reachable state or every run. Code
that updates buffers, counters, lists and streams one caller at a time is imperative Dafny, proved
against functions on values. Time is a number that callers supply.

| files | models |
|---|---|
| `Bytes`, `Codec`, `Layout`, `Serialize` | PTCP wire format: parser and printer on byte sequences, the format by offset, and the printer as it fills buffers |
| `PtcpSession`, `TwoEndpoints` | the session counters as an object, and two endpoints joined by in-order lossy channels |
| `Stall` | the outbound stall detector |
| `SendPath`, `SendProgress`, `Deadlines` | send permit, active-writer deadline protocol, closing against writes in progress, when a write goes out, and which deadline it runs under |
| `AckCoalescing` | scheduleACK, flushACK and Close's stop of the timer |
| `Realms`, `DialLaws` | Dial, the reader's CONN and DISC handling, Conn.Close and Close on the realm map |
| `ConnStream`, `Demux`, `EndToEnd` | Write, Read, dispatch to per-realm queues, and the stream from one end to the other |
| `SessionPool`, `SessionLaws`, `SessionManagement`, `SessionWorld` | the session manager's critical sections as functions, what they answer and leave, as methods with loops, and in every interleaving |
| `Locks`, `LockOrder` | the locks every operation takes, and deadlock freedom |
| `Rtsp`, `RtspText`, `Negotiation`, `RtspProxy` | RTSP framing, what its tests of single lines mean, the exchange before the handover, and the proxy and connection handler that copy it |
| `Bridge` | connection slots, the negotiation token and the realms they admit |

Four promises fail as they stand; each has a run that shows it and its exact condition.

- A Conn can outlive its tunnel: a Conn.Close in progress deletes by realm ID and can take out a
  newer Conn that drew the same ID (`Realms.RedrawnRealmIsLost`). Every Conn is accounted for
  throughout a run exactly when no event deletes another Conn's entry
  (`Realms.AccountedIffNeverMisdeletes`).
- EOF from Read is not always final: after a local Close the reader may still enqueue
  (`Demux.EofThenData`). It is final exactly when the reader can serve the Conn no more: it holds no
  payload for it, and the realm has left the map or is about to, its queue having been full
  (`Demux.EofFinality`).
- Outstanding bytes are visible exactly below 2^31 (`TwoEndpoints.OutBytesTurnsNegative`,
  `TwoEndpoints.OutBytesConservation`, `Stall.OutstandingIsVisible`).
- A write may run under a deadline that was replaced, when two SetDeadline calls overlap
  (`Deadlines.OlderDeadlineWins`), and does so exactly when an older call applies its deadline last
  (`Deadlines.UpToDateIffNeverOvertaken`).

The comment at tunnel/tunnel.go:207 speaks of a mutex sendMu; the code uses a channel of capacity
one, sendPermit, and so does the model.

## Model

| member | source | states |
|---|---|---|
| Codec.HeaderRoundTrip | ptcp/types.go:56-82 | parsing serialized header bytes, whatever follows, gives the header back |
| Codec.HeaderNormalForm | ptcp/types.go:56-82 | a parsed header serializes to the very bytes it was read from |
| Codec.LenIsSerializedLength | ptcp/types.go:158-219 | Len is the length of the serialized body, for every body |
| Codec.BodyRoundTrip | ptcp/types.go:180-271 | parsing a serialized body gives it back if and only if it is canonical |
| Codec.PacketRoundTrip | ptcp/types.go:285-305 | the same for whole packets |
| Codec.PacketBytesInjective | ptcp/types.go:285-305 | canonical packets with the same bytes are equal |
| Codec.ParsedIsCanonical | ptcp/types.go:222-271 | what the parser accepts below 2^24 bytes is canonical |
| Codec.ExactBodies | ptcp/types.go:222-271 | payload, command and empty bodies serialize to exactly the input |
| Codec.NormalForm | ptcp/types.go:285-305 | for every accepted datagram of UDP size, parse-serialize-parse is parse, and payload, command and empty packets reproduce the datagram |
| Layout.HeaderIsLaidOut | ptcp/types.go:56-65 | header bytes by offset: magic at 0, then Sent, Recv, PID, LMID and RMID as big-endian words at 4, 8, 12, 16 and 20 |
| Layout.BodyIsLaidOut | ptcp/types.go:180-219 | body bytes by offset for each type: tag, 24-bit length, realm, padding, data; port and 127.0.0.1 of a BIND; the fixed bytes of SYNC and heartbeat; the tag or-ed with the length's top byte |
| Layout.HeaderIsReadFrom | ptcp/types.go:68-82 | a header is accepted exactly if it is there, with each field read from its offset; which error comes when |
| Layout.BodyIsReadFrom | ptcp/types.go:222-271 | for every body, the parser returns it if and only if the bytes at the stated offsets are those of that body |
| Layout.BodyIsRefused | ptcp/types.go:222-271 | exactly when each error comes: too short for its type, padding, wrong length |
| Serialize.SerializeHeader | ptcp/types.go:56-65 | the buffer filled in place holds the header's bytes, field by field at its offset |
| Serialize.SerializeBody | ptcp/types.go:180-219 | the buffer filled in place holds the body's bytes, field by field at its offset, whatever the type |
| Serialize.SerializePacket | ptcp/types.go:285-292 | the same for header and body together |
| PtcpSession.DeltaIsDistance | ptcp/session.go:35-54 | the signed difference of two wrapped counters is the true distance if and only if that fits 32 bits |
| PtcpSession.Session.Send | ptcp/session.go:72-105 | the packet carries the counters, and all counters move as the two-endpoint model says, wrapping at 2^32 |
| PtcpSession.Session.Recv | ptcp/session.go:108-120 | the counters after a packet, and which stay |
| TwoEndpoints.OutBytesConservation | ptcp/session.go:40-43 | under any loss, OutBytes is what was sent minus what the peer reported, if and only if that is below 2^31 |
| TwoEndpoints.OutBytesTurnsNegative | ptcp/session.go:38-43 | a run that leaves 2^31 bytes outstanding, where OutBytes is -2^31 |
| TwoEndpoints.LosslessConservation | ptcp/session.go:72-120 | without loss OutBytes is bytes in flight plus bytes received but not reported back, if and only if that is below 2^31 |
| TwoEndpoints.InBytesMeasuresLoss | ptcp/session.go:50-54 | InBytes is the bytes lost before the last packet received minus that packet's body, across any number of wraps |
| TwoEndpoints.PidUniqueness | ptcp/session.go:72-105 | PIDs of non-SYNC packets agree exactly at multiples of 65536 such packets, so never within 65535, and none is SYNC's |
| TwoEndpoints.LmidIsSendingOrder | ptcp/session.go:72-105 | LMID is the place in the sending order modulo 2^32 |
| TwoEndpoints.HeadersReportTotals | ptcp/session.go:72-105 | every header field of every packet sent in any run, in terms of true totals: bytes sent before it, bytes received, its number, the last number received, its PID |
| TwoEndpoints.StatsReportLastHeader | ptcp/session.go:56-64 | a snapshot holds the true totals modulo 2^32 and the peer's counters from the last header received |
| TwoEndpoints.FlipReachable | ptcp/session.go:72-120 | all of this holds for either end: swapping the ends of a reachable state gives a reachable state |
| Stall.Detector.OutboundStalled | tunnel/tunnel.go:458-481 | the answer is a function of the whole history of checks, of which the object keeps two fields |
| Stall.StallIffFrozen | tunnel/tunnel.go:458-481 | a stall is reported if and only if some check more than 20 s ago was followed only by checks with outstanding bytes and the same PeerRecv |
| Stall.StallIsDetected | tunnel/tunnel.go:448-515 | with checks at most 5 s apart a frozen device is reported within 25 s |
| Stall.OutstandingIsVisible | ptcp/session.go:35-43 | outstanding bytes count as positive if and only if there are between 1 and 2^31 - 1 |
| SendPath.OnePermit | tunnel/tunnel.go:213-321 | on every path exactly one permit exists, free or held by one goroutine, and returning it never blocks |
| SendPath.WireOrder | tunnel/tunnel.go:213-252 | packets reach the socket in strictly increasing LMID order |
| SendPath.NoDeadlineLeak | tunnel/tunnel.go:219-252 | in every reachable state with an open socket: with no active writer the deadline is clear, and a deadline is the active writer's |
| SendPath.WritesUnderOwnDeadline | tunnel/tunnel.go:219-252 | a write runs under no deadline or its own Conn's, and ACK, heartbeat, BIND and DISC under none |
| SendPath.NoLostInterrupt | tunnel/tunnel.go:323-344 | once signalClosed has returned, a write still in progress for the Conn has an expired deadline of that Conn and cannot succeed, and a waiting one can leave |
| SendPath.SilentAfterClose | tunnel/tunnel.go:848-858 | in no continuation does anything of that Conn reach the socket |
| SendProgress.QueuedLeavesIff | tunnel/tunnel.go:265-290 | a queued write leaves if and only if its Conn is closed or its deadline is not after the clock, else it waits |
| SendProgress.ParkedChoosesIff | tunnel/tunnel.go:292-311 | when each case of the select is open, and where it leads |
| SendProgress.GrantedIff | tunnel/tunnel.go:307-318 | the permit is kept if and only if the tunnel is not done |
| SendProgress.HoldingReads | tunnel/tunnel.go:219-225 | what is read under both mutexes |
| SendProgress.CheckingArmsIff | tunnel/tunnel.go:226-241 | the socket is armed, with exactly the deadline read, if and only if that is not due, the Conn was open and the socket is |
| SendProgress.WriteGoesOut | tunnel/tunnel.go:213-252 | a write that nothing hinders reaches the wire by its own steps alone, one for each stage, from any stage |
| SendProgress.PlainGoesOut | tunnel/tunnel.go:209-252 | in every reachable state with a free permit and open socket, any other packet reaches the wire within three steps of its own |
| Deadlines.UpToDateIffNeverOvertaken | tunnel/tunnel.go:323-335 | in every state of a run the deadline in use is the Conn's present one, or the call that set it has still to apply it, if and only if no call ever applies an older one last |
| Deadlines.WriteUnderLatestDeadline | tunnel/tunnel.go:1010-1037 | in such a run a write in progress is under the deadline set last, once that call is done |
| Deadlines.TurnsAreNeverOvertaken | tunnel/tunnel.go:1010-1037 | calls for one Conn that do not overlap make such a run |
| Deadlines.OlderDeadlineWins | tunnel/tunnel.go:1010-1037 | a run with two overlapping calls, both done, that leaves the older deadline on the socket |
| AckCoalescing.PendingIsOneFlush | tunnel/tunnel.go:664-700 | until Close stops the timer, ackPending holds exactly while there is a flush, and there is at most one |
| AckCoalescing.ScheduledIsCovered | tunnel/tunnel.go:577-674 | every packet scheduleACK was called for is covered by an attempted ACK with counters read after it, or by a flush still to read them |
| AckCoalescing.ScheduledAreThese | tunnel/tunnel.go:580-651 | with an idle reader, scheduleACK was called for exactly the payloads, statuses and heartbeats received |
| AckCoalescing.ReceivedIsCovered | tunnel/tunnel.go:580-689 | each of them is covered by an attempted ACK read later or by a flush still to read |
| AckCoalescing.CloseStopsTimer | tunnel/tunnel.go:361-365 | after Close's stop no flush is armed, and fired ones go on |
| AckCoalescing.FlushNeedsNobody | tunnel/tunnel.go:680-689 | a flush under way covers everything scheduled within three steps, all of them its own timer's and goroutine's |
| AckCoalescing.ClosesAfterFiveFailures | tunnel/tunnel.go:680-700 | a flush closes the tunnel exactly when its own and the previous attempts make five failures in a row |
| Realms.DialLeavesNoResidue | tunnel/tunnel.go:734-825 | between Dials there is no CONN waiter, and every realm in the map is of a Conn that was returned |
| Realms.SuccessWasGranted | tunnel/tunnel.go:784-812 | every returned Conn was granted by a CONN processed while its waiter was installed |
| Realms.GrantNeverBlocks | tunnel/tunnel.go:595-603 | the reader's send to a waiter finds the channel empty |
| Realms.QuietDial | tunnel/tunnel.go:734-812 | from every state with an open tunnel, free dialMu and idle reader, a Dial with any unused realm ID has a run to success, and what that leaves |
| DialLaws.LooksIff | tunnel/tunnel.go:735-760 | at both looks a Dial goes on if and only if the tunnel is neither closed nor retired |
| DialLaws.RefusedForGood | tunnel/tunnel.go:746-760 | once the tunnel is closed or retired, no Dial that is not past its second look ever draws a realm or returns a Conn |
| DialLaws.ThreeAttempts | tunnel/tunnel.go:762-784 | in every reachable state a realm is drawn exactly for the first three attempts while the map is there |
| DialLaws.SelectsIff | tunnel/tunnel.go:806-819 | when CONN, shutdown and timeout are taken, and where each leads |
| DialLaws.CleansUp | tunnel/tunnel.go:791-798 | cleanup removes the realm, then the waiter, and retries exactly after a timeout |
| DialLaws.MarksIff | tunnel/tunnel.go:968-974 | Conn.Close remembers whether the Conn was closed before |
| DialLaws.ClosesIff | tunnel/tunnel.go:974-998 | it signals always, and deletes the realm only as the first |
| DialLaws.ReadsIff | tunnel/tunnel.go:595-615 | a CONN wakes exactly the waiting Dial of its realm, a DISC removes exactly its realm |
| Realms.LostIffMisdeleted | tunnel/tunnel.go:626-640 | an event leaves a Conn neither in the map nor signalled nor about to be if and only if it deletes another Conn's entry by realm ID |
| Realms.AccountedIffNeverMisdeletes | tunnel/tunnel.go:626-640 | over whole runs: every Conn is accounted for in every state if and only if no event of the run does so |
| Realms.NoConnOutlivesTunnel | tunnel/tunnel.go:347-392 | in every such run, once Close has emptied the map every returned Conn is signalled or about to be |
| Realms.FreshRealmsNeverMisdelete | tunnel/tunnel.go:704-713 | runs that never redraw a realm ID are such runs |
| Realms.RedrawnRealmIsLost | tunnel/tunnel.go:968-998 | a run with a redrawn ID in which everything finishes and a returned Conn is never signalled |
| ConnStream.FragmentsFlatten | tunnel/tunnel.go:933-965 | the fragments of a write concatenate to it |
| ConnStream.FragmentSizes | tunnel/tunnel.go:933-965 | every fragment has 1 to 1280 bytes |
| ConnStream.Write | tunnel/tunnel.go:939-965 | what was sent is a prefix of the fragments, n is exactly its length, and there is no error exactly when that is everything |
| ConnStream.ReadPassConserves | tunnel/tunnel.go:861-931 | one pass of Read hands out and keeps exactly the bytes that were there, in order |
| ConnStream.ReadPassHandsOut | tunnel/tunnel.go:861-931 | exactly how many bytes a pass hands out and of what, and exactly when it is EOF or has to wait |
| ConnStream.Conn.Pass | tunnel/tunnel.go:862-889 | one pass with its deadline check is ReadPass, or expires with nothing changed |
| ConnStream.Conn.Read | tunnel/tunnel.go:861-931 | over any wakeups, bytes handed out and kept are those present and arrived, and EOF comes only when closed and empty |
| ConnStream.Conn.Wait | tunnel/tunnel.go:888-920 | what ends a parked Read: data, close, timer or a passed deadline, each with its answer, while a later deadline ends none |
| ConnStream.Conn.Offer | tunnel/tunnel.go:626-632 | the reader's non-blocking send enqueues at the end, or refuses and changes nothing when 4096 are queued |
| Demux.NoHoles | tunnel/tunnel.go:604-645 | for every Conn, bytes returned, readBuf and queue are the concatenation of a prefix of its realm's payloads |
| Demux.Isolation | tunnel/tunnel.go:626-640 | what happens to one Conn, overflow included, changes no other Conn's queue or stream |
| Demux.DispatchIff | tunnel/tunnel.go:625-632 | in every reachable state a payload is enqueued last, or finds exactly 4096 queued and is not |
| Demux.TornDownWithReason | tunnel/tunnel.go:604-640 | over whole runs, the reader tears a Conn down only after a DISC for its realm or at 4096 queued payloads |
| Demux.UnservedRun | tunnel/tunnel.go:604-645 | once the reader can serve a Conn no more, what was enqueued stays all there is, and EOF stays EOF, over every continuation |
| Demux.DataAfterEof | tunnel/tunnel.go:861-931 | a Conn at EOF that the reader may still serve gets data: the run, whatever the reader is busy with |
| Demux.EofThenData | tunnel/tunnel.go:968-998 | a run from the start to EOF of a locally closed Conn, and on to data |
| Demux.EofFinality | tunnel/tunnel.go:861-931 | EOF comes only when everything enqueued was delivered, and is final if and only if the reader can serve the Conn no more, as after every teardown by the reader |
| EndToEnd.WireCarriesPayloads | ptcp/types.go:188-250 | serializing and parsing carries each realm's payloads across, in order |
| EndToEnd.WriteEach | tunnel/tunnel.go:939-965 | successive writes that succeed send exactly the payload bodies of all their fragments |
| EndToEnd.CarriedPayloads | tunnel/tunnel.go:933-965 | among arbitrary other packets, those bodies are canonical and carry the fragments |
| EndToEnd.StreamIsPreserved | tunnel/tunnel.go:861-965 | over lossless in-order datagrams without overflow, any reads of any sizes yield exactly the written bytes |
| EndToEnd.DiscIsRead | ptcp/types.go:141-147 | a serialized DISC is read back as a DISC for its realm |
| EndToEnd.EofMeansEverything | tunnel/tunnel.go:604-615 | after a DISC, whatever follows, a consumer that reads to EOF has read exactly what was written before |
| SessionManagement.SessionKeyFor | dahua.go:270-279 | every setting is in the key, with a capacity of 8 for one that is not positive |
| SessionManagement.CompactInPlace | dahua.go:283-301 | compaction in the list's own array is the old list filtered, in order, and touches nothing behind it |
| SessionManagement.RemoveInPlace | dahua.go:397-404 | removal by shifting is the old list without the session |
| SessionManagement.RemoveSession | dahua.go:397-404 | the list without its one occurrence of the session, and unchanged if there is none |
| SessionManagement.SessionManager.FindAvailableSession | dahua.go:283-315 | dead sessions are filtered out with their timers stopped, and the first one with room is found, if there is any |
| SessionLaws.EnterOutcome | dahua.go:325-357 | for each answer of Acquire's first section exactly when it comes: refused, the first usable session in list order, port taken, wait, or handshake |
| SessionLaws.EnterLeaves | dahua.go:283-357 | what it leaves of every list, session and timer |
| SessionLaws.FinishLeaves | dahua.go:362-376 | when the second section lists the client, and what it leaves |
| SessionLaws.ReleaseLeaves | dahua.go:424-480 | holders, timers and list after a release, and exactly when the client is to be closed |
| SessionLaws.IdleLeaves | dahua.go:458-476 | the idle callback closes exactly a listed session that nobody holds |
| SessionLaws.ForgetLeaves | dahua.go:408-419 | forget unlists the session and stops its timer, and nothing else |
| SessionLaws.CloseAllLeaves | dahua.go:483-496 | every list gone and exactly the timers of listed sessions stopped |
| SessionManagement.SessionManager.AcquireEnter | dahua.go:325-357 | the first section of Acquire is Enter |
| SessionManagement.SessionManager.AcquireFinish | dahua.go:362-376 | the second section is Finish: listed only if the handshake succeeded and the manager is open |
| SessionManagement.SessionManager.ForgetSession | dahua.go:408-419 | forget stops the timer and unlists |
| SessionManagement.SessionManager.Release | dahua.go:424-480 | whatever order the keys come in, the session's own entry is released as ReleaseAt says, and an unlisted client changes nothing |
| SessionManagement.SessionManager.IdleCallback | dahua.go:458-476 | the callback unlists and closes only a session that nobody holds |
| SessionManagement.SessionManager.CloseAllSessions | dahua.go:483-496 | the manager is closed and empty, every timer stopped, and exactly the listed sessions are returned for closing |
| SessionWorld.ReservationsAreCounted | dahua.go:283-394 | in every run a listed session's refCount is the number of its holders and at most its key's capacity |
| SessionWorld.ExpiryNeverClosesHeld | dahua.go:424-480 | neither idle expiry nor release of a retired tunnel closes a client that anyone holds, then or at any later time |
| SessionWorld.NoForgottenIdle | dahua.go:437-477 | a listed session nobody holds has an armed timer or a fired callback still to run, and no key has an empty or repeating list |
| SessionWorld.NoLeak | dahua.go:359-385 | every client ever connected is closed, listed, owed a Close, or in an Acquire |
| SessionWorld.NothingListedAfterShutdown | dahua.go:483-501 | after CloseAll nothing is ever listed again |
| SessionWorld.CallbackRunsOnce | tunnel/tunnel.go:347-430 | counting every call: the close callback is called at most once, and exactly once if and only if the tunnel is closed and SetOnClose was called, however they race and however often Close is called |
| SessionWorld.SingleFlight | dahua.go:343-362 | at most one Acquire per key is between its sections |
| SessionWorld.FixedPortIsExclusive | dahua.go:338-342 | a key with a fixed port lists at most one session, and none during a handshake |
| LockOrder.EveryCallIsOrdered | tunnel/tunnel.go:213-392 | on every path of every operation, nested locks are taken in one strict order |
| Locks.OrderedIsClean | tunnel/tunnel.go:213-252 | code in that order, started under any lower locks, never takes a lock out of order and gives back exactly what it takes |
| LockOrder.MutualExclusion | tunnel/tunnel.go:213-252 | two goroutines hold one lock only if both hold it for reading |
| LockOrder.NoWaitCycle | tunnel/tunnel.go:679-825 | no reachable state has a cycle of waiting goroutines, counting readers that wait for a waiting writer |
| LockOrder.NoDeadlock | dahua.go:283-480 | while any operation is unfinished some goroutine has a step that no reader or writer policy can refuse |
| LockOrder.EveryOperationEnds | tunnel/tunnel.go:347-392 | without new operations every schedule has a known number of steps, can go on until then, and leaves everyone idle |
| Rtsp.ContentLengthRoundTrip | cmd/dahua-p2p/proxy.go:77-88 | a Content-Length line in any letter case and padding declares the number it shows, and a second one is refused |
| Rtsp.FramesExactlyMessages | cmd/dahua-p2p/proxy.go:47-98 | the framer accepts exactly the messages: start line, header lines up to a blank one within 64 KiB, and the declared body of at most 1 MiB |
| Rtsp.MessagesArePrefixFree | cmd/dahua-p2p/proxy.go:47-98 | no message is a proper prefix of another |
| Rtsp.RequestIsValid | cmd/dahua-p2p/proxy.go:100-103 | a request is valid if and only if it is a method, a URI and RTSP/1.0, with white space between and any around |
| RtspText.FinishedIff | cmd/dahua-p2p/proxy.go:129-137 | for every two lines, the negotiation is finished if and only if the request's first word is PLAY or RECORD in any case and the response's second word starts with 2 |
| RtspText.NoteIff | cmd/dahua-p2p/proxy.go:77-88 | what any header line with a colon does to the declared length: another name nothing, Content-Length exactly a first, non-negative 64-bit number |
| RtspText.NoColon | cmd/dahua-p2p/proxy.go:77-78 | a line without a colon declares nothing |
| RtspText.ColonLine | cmd/dahua-p2p/proxy.go:77-78 | every line with a colon has such a name and value, so these two cover every header line |
| RtspText.SpaceIs | cmd/dahua-p2p/proxy.go:78-83 | which characters count as white space |
| RtspText.ParseIntIff | cmd/dahua-p2p/proxy.go:83-86 | exactly the decimal numerals of 64-bit numbers are accepted, signs and leading zeros included |
| RtspText.StartLineIs | cmd/dahua-p2p/proxy.go:47-98 | the start line returned is the message's first line without the white space around it |
| Negotiation.HandoverIffExchange | cmd/dahua-p2p/proxy.go:32-45 | the loop hands over after u and d bytes if and only if these are one exchange of messages whose last pair, and no earlier one, is a PLAY or RECORD with a response that succeeds |
| RtspProxy.Source.ReadLine | cmd/dahua-p2p/proxy.go:105-114 | however bytes arrive, exactly the next line is consumed if it fits the buffer, else there is an error |
| RtspProxy.Sink.WriteAll | cmd/dahua-p2p/proxy.go:116-127 | a prefix is written, all of it exactly on success |
| RtspProxy.CopyMessage | cmd/dahua-p2p/proxy.go:47-98 | always writes a prefix of what it consumed; on success both are exactly the message; it fails only without a whole message or on a failed write |
| RtspProxy.Converse | cmd/dahua-p2p/proxy.go:32-45 | hands over exactly after the exchange, each side holding an in-order copy, unless a write fails |
| RtspProxy.Proxy | cmd/dahua-p2p/proxy.go:19-45 | at the handover, written plus unread bytes are the first request and all input in either direction; otherwise each side has a prefix |
| RtspProxy.Handle | cmd/dahua-p2p/main.go:274-330 | from the first byte on: the device gets a prefix of the upstream bytes, at the handover nothing is missing in either direction, and it comes exactly when the streams begin with a valid request and a finishing exchange, unless a write fails or no realm opens |
| Bridge.ConnectionLimit | cmd/dahua-p2p/main.go:91-96 | the smaller of the two limits |
| Bridge.OneNegotiation | cmd/dahua-p2p/main.go:332-354 | at most one handler is between taking the negotiation token and finishing |
| Bridge.ReleasedExactlyOnce | cmd/dahua-p2p/main.go:274-354 | each lock is released once on every path, by a handler that finds its own token and never blocks |
| Bridge.RealmsAreBounded | cmd/dahua-p2p/main.go:183-215 | realms in the tunnel's map never exceed occupied slots, nor those either configured limit |
| Bridge.AcceptedIff | cmd/dahua-p2p/main.go:196-213 | a connection is accepted if and only if both limits leave a slot |
| Bridge.EveryHandlerCanLeave | cmd/dahua-p2p/main.go:274-354 | from every reachable state a handler gives back token, realm and slot within four steps of its own |

## Left out

- RtspProxy.Source.ReadLine: which of the two errors is reported, end of input or line too long, and how much of the buffer an error discards are not stated.
- Locking, timers and goroutines in SendPath, AckCoalescing, Realms, SessionWorld and Bridge are transition systems on values, so aliasing between slices and pointers is not captured there.
- SessionManagement keeps its lists as sequences; CompactInPlace and RemoveInPlace show the same two algorithms on an array.
- LockOrder fixes the path of an operation when it begins, so it does not say which paths the shared state allows; waiting for another Acquire's handshake holds no lock and is not a lock there.
- White space outside ASCII in RTSP headers, which TrimSpace and Fields would also strip.
- The wait of WaitSettle, the loss reporter, copyBoth after the handover, and closing the listener.
- Client.Dial's policy of closing or retiring a tunnel beyond the locks it takes, and Stats.OutMsgs.
- How realm IDs are drawn: any ID not in the map may come.
- The operating system's UDP socket beyond accepting or rejecting a write and honouring deadlines, and real clocks.
- dh/: handshake, cloud requests, XML and cryptography.
- Configuration, flags, environment variables, logging, tracing, String methods and packaging.
