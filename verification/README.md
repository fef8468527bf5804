# A verified model of liveurl

liveurl gives a local development server a public URL that outlives the connection to it.
While the agent on the developer's machine is connected, requests are proxied to it. While it
is away, webhooks are stored and acknowledged, pages are served from a cache of earlier
responses, and when the agent reconnects the stored webhooks are replayed.

This project models the parts of the server and the agent that keep state over time and proves
what they keep. Every method is verified against a specification function or a stated
post-state, and the results about whole runs are lemmas about those functions or about a state
machine. The modules follow the program:

- **The webhook queue.** `Events` is the table and its SQL statements. `Replay` is
  `ReplayEvent` and `Drain` as loops over it; `Drains` says what a drain does and how far a
  series of drains gets; `Control` is the manual replay and clear of the control API; `QueueRuns`
  puts enqueues, drains, manual replays and clears together in any order. In these, drains do
  not overlap.
  `Workers` drops that premise: any number of drains and manual replays, one SQL statement or one
  response per step, over agent sessions that come, replace one another and go. `Overlap` relates
  the two models; `Finality` says exactly when a delivery, a death or a stranding is for good, and
  when an event has been accepted for the last time; `Order` proves the order of delivery in every
  interleaving in which the drains fit in with one another, and `Reconnects` that order is safe
  exactly if they do.
- **The rate limiter.** `RateLimit`, against a table of token buckets that forgets nothing.
- **The snapshot cache.** `Snapshots` and the capped copy that feeds it, `Tee`.
- **Connections.** `Sessions` is the registry, `Presence` the timed keys, `Connections` any
  interleaving of connects, heartbeats, replacements, closes and late disconnect handlers, and
  `Uptime` says exactly when a session is sure to stay online.
- **Migrations.** `Migrations` for one caller alone, `MigrationLock` for any number of them
  behind the advisory lock.
- **Names and routes.** `Routing` (hosts and names), `Tunnels` (claiming a name, the handshake),
  `Claims` (claims that race), `Edge` (limiter and dispatch), `Offline` (what is served while the
  agent is away), `Banner` (the notice in a stored page), `Backoff` (the agent's reconnect delays).

`dafny verify dfyconfig.toml` checks all of it.

## Where the code and what it says of itself differ

The model follows the code. The differences that came out:

- README.md:9 and README.md:56-57 promise replay in the exact order of arrival. It holds in every
  interleaving of statements, connects and closes as long as nothing is replayed by hand and every drain
  that starts fits in with those still at work (`Order.DeliveryOrder`): of two drains of a tunnel, one can get
  nothing more accepted, and put back nothing that is not younger than what the other can get
  accepted. Order is safe from the start of a drain on exactly if it fits in (`Reconnects.StartKeepsOrderIff`). An
  ordinary reconnect need not: while the old drain waits for an answer, the new one overtakes it
  (`Reconnects.BusyReconnectIsReachable`).
- With each drain taken as one operation, order holds over every run whose manual replays fit in
  (`QueueRuns.DeliveryOrder`). A manual replay leaves it safe for all that can follow exactly if the
  event is newer than all its tunnel's app has accepted and, when it is accepted on the spot, older than
  everything the tunnel has queued (`QueueRuns.HandsKeepOrderIff`); a delivered event never meets that.
- An old drain that has listed an event but not yet sent it when the agent reconnects cannot open a stream
  any more, and puts the event back even if the new drain has delivered it (`Overlap.DeliveryCanBeUndone`) or
  seen it die (`Overlap.DeathCanBeUndone`); the next drain then delivers it again (`Overlap.DeliveredTwice`). Exactly
  when a verdict can still be taken back, and when an event cannot be accepted again, is what
  `Finality.DeliveryFinalIff`, `Finality.DeathFinalIff` and `Finality.NeverAgainIff` say.
- Five failing attempts are not a lifetime limit: a transport error resets the count. An event dies
  exactly when five server errors come in a row, counted since it was enqueued or last replayed by
  hand (`QueueRuns.EventsMeetTheirFate`), and an app that alternates between an error status and a
  lost response keeps its queue for ever (`Drains.AlternatingNeverSettles`).
- A manual replay runs under a deadline (internal/control/server.go:312). When its time is up before its
  last update, no worker may be left on the event (`Workers.UnattendedIff`), though no store fails and nothing
  crashes. The event then stays in replaying for good, short of a clear or another manual replay, exactly if
  no drain can still come to it in its list (`Finality.StrandedIff`, `Finality.StrandedIsReachable`).
- README.md:57 says that replayed requests are byte-identical. The host never is: Go's server takes it out of
  the headers that are stored, so the replayed request names none (`Offline.HostIsLost`).
- internal/edge/snapshot/snapshot.go:83-84 says that the banner goes just before `</body>`. It does
  exactly if lower-casing keeps the length of what comes before the tag (`Banner.RightPlaceIff`), so for every
  ASCII page; one byte that is not valid UTF-8 misplaces it and four of them can stop the handler
  (`Banner.StrayBytes`).
- A subdomain with an open session can be offline for up to a third of the presence lifetime. The
  cause is the late `Clear` of an earlier connection, which need not have been replaced: one that
  left the registry by itself can do it too (`Connections.UnreplacedClearOpensOutage`). The session
  is sure to stay online, until the next connection is put, exactly if it is online and every
  other handler of its subdomain has finished (`Uptime.StaysOnlineIff`).
- internal/store/tunnels.go:21-23 promises the tunnel to its owner. Of two first claims that race, one
  ends in an error although the name is the caller's own (`Claims.OwnerCanFail`). A claim whose own
  statements run succeeds exactly if the name was its user's at its select, or was free and
  nobody's insert came in between (`Claims.ClaimSucceedsIff`). A claim on an existing tunnel
  reports the buffer rules it had before.
- internal/edge/tunnelserver.go:201 asks for names of 2 to 63 characters; the pattern on line 22 of that file
  takes 3 to 63 (`Routing.NameLengths`).

## Model

| member | source | states |
|---|---|---|
| `Events.QueueOrdered` | internal/store/events.go:53-56 | the queue lists exactly the tunnel's queued events, each once, by receipt time and then id |
| `Events.OrderingUnique` | internal/store/events.go:53-56 | that order leaves no choice: two listings of the same rows are equal |
| `Events.EventStore.EnqueueEvent` | internal/store/events.go:38-51 | the new row is queued, unattempted and under an id never used before; no other row changes |
| `Events.EventStore.QueuedEvents` | internal/store/events.go:53-71 | the scan returns the rows of the queue in its order |
| `Events.EventStore.EventByID` | internal/store/events.go:101-113 | the row of that id, or not found |
| `Events.EventStore.MarkReplaying` | internal/store/events.go:115-118 | changes the one row if it is there, and no other; a row that is gone is no error |
| `Events.EventStore.MarkDelivered` | internal/store/events.go:120-128 | column by column: the row is delivered, with one attempt more and the given status and time, its id, tunnel, request and receipt time as before; only that row changes |
| `Events.EventStore.MarkFailed` | internal/store/events.go:130-144 | column by column: its two statements together count the attempt, record the status and make the row dead at the fifth attempt, else queued; an error if the row is gone |
| `Events.EventStore.RequeueEvent` | internal/store/events.go:146-150 | wipes attempts, status and delivery time |
| `Events.EventStore.ClearEvents` | internal/store/events.go:152-155 | removes the tunnel's rows and no others |
| `Options.CopyMap` | internal/edge/replay/replay.go:129-137 | the copy has the same names with the same values |
| `Replay.BuildRequest` | internal/edge/replay/replay.go:109-127 | method, path, query, body and every header are kept but for the two that are set; the host is the stored Host header's |
| `Replay.ReplayEvent` | internal/edge/replay/replay.go:64-107 | below 500 the row is delivered with that status and the answer's time, from 500 on it has one attempt more and that status and is dead at the fifth, without an answer its record is wiped; the request sent is the stored one with the two marks; an error is reported only for transport failures or a failing mark of a row that is gone |
| `Replay.Drain` | internal/edge/replay/replay.go:29-54 | the loop ends in the table of the specification, and the requests sent are those of the queue in order up to the one it stops at |
| `Replay.AppliedHit` | internal/edge/replay/replay.go:43-53 | an event that is tried ends as its own outcome says, whatever comes after it |
| `Replay.WiresAt` | internal/edge/replay/replay.go:43-53 | the i-th request sent is the i-th queued event's |
| `Drains.DrainExact` | internal/edge/replay/replay.go:29-54 | a drain delivers a prefix of the queue, fails or requeues at most the next event, and leaves every other row identical |
| `Drains.DrainKeepsOrigins` | internal/edge/replay/replay.go:29-54 | a drain changes no event's id, tunnel, request or receipt time |
| `Drains.QueueAfterDrain` | internal/edge/replay/replay.go:43-53 | the queue afterwards is the old one without the delivered prefix, and without the next event if that died |
| `Drains.DrainKeepsWellFormed` | internal/store/events.go:115-150 | queued means fewer than 5 attempts and no delivery time, delivered 1 to 5 attempts, a status below 500 and a time, dead 5 attempts and a status of at least 500 |
| `Drains.DrainProgress` | internal/store/events.go:130-144 | without transport failures a drain of a non-empty queue strictly lowers the attempts its events have left |
| `Drains.SettledWithin5n` | internal/edge/replay/replay.go:43-53 | so n queued events are all delivered or dead within 5n drains |
| `Drains.AlternatingNeverSettles` | internal/store/events.go:146-150 | the premise is needed: alternating server errors and transport errors never change the queue |
| `Drains.FateDecided` | internal/store/events.go:130-150 | of any series of outcomes met one after the other: the event dies exactly when five server errors in a row precede any acceptance, is delivered exactly when an acceptance comes first, and else has as many attempts as server errors since the last reset |
| `Control.ReplayNow` | internal/control/server.go:278-329 | an unknown id and a stranger's call change no row and send nothing; the owner's call wipes the record and, with an agent connected, sends it exactly the stored request with the two marks, unless no stream opens; each reply has its exact cause |
| `Control.ClearNow` | internal/control/server.go:239-250 | clears exactly the caller's own named tunnel; every other event stays |
| `QueueRuns.RowsAlwaysWellFormed` | internal/store/events.go:115-150 | rows are well formed after any run of enqueues, drains, manual replays and clears, and none is left in replaying |
| `QueueRuns.ClearTakes` | internal/store/events.go:152-155 | in a run a clear takes exactly its tunnel's rows and changes no history |
| `QueueRuns.StepKeepsTidy` | internal/edge/replay/replay.go:29-54 | each operation keeps the acceptances in order and everything queued behind them |
| `QueueRuns.EventsMeetTheirFate` | internal/store/events.go:120-150 | over every run, manual replays included, the row of an event is decided by the outcomes it met since it was enqueued or last replayed by hand: dead exactly if five server errors in a row came before any acceptance, delivered exactly if an acceptance came first, else queued with the server errors since the last other failure as attempts |
| `QueueRuns.RecordsAreTrue` | internal/store/events.go:120-150 | over every run a delivered event's status and time are those of the answer that accepted it, its last outcome; a waiting or dead event has no time, and the status of its last outcome if that was a server error, else 0 |
| `QueueRuns.DeliveryOrder` | internal/edge/replay/replay.go:27-54 | with each drain as one operation, over any run whose manual replays fit in, each tunnel's acceptances strictly follow (receipt time, id), so none comes twice, and every earlier event is accepted, dead or cleared |
| `QueueRuns.HandsKeepOrderIff` | internal/control/server.go:299-314 | for every event and outcome: all that can follow a manual replay without another one stays in order exactly if the event is newer than all acceptances of its tunnel and, if accepted on the spot, older than all it has queued |
| `QueueRuns.DeliveredNeverFitsIn` | internal/control/server.go:299-314 | a delivered event never meets that condition |
| `Order.StepKeepsOk` | internal/edge/replay/replay.go:29-54 | every orderly step keeps what can still be accepted younger than the tunnel's acceptances, and asked for from the oldest on |
| `Order.DeliveryOrder` | internal/edge/replay/replay.go:27-54 | in every interleaving without manual replays in which the drains fit in, each tunnel's acceptances strictly follow (receipt time, id), and every earlier event is accepted, dead, at its last failure or cleared |
| `Reconnects.StartKeepsOrderIff` | internal/edge/tunnelserver.go:152-161 | in every state that orderly steps lead to, for every drain that starts beside any others: all that can follow stays in order exactly if the drain fits in |
| `Reconnects.BothAsk` | internal/edge/replay/replay.go:43-53 | of two drains that can both get an event accepted, the one with the older event can come last |
| `Reconnects.PutBackAfter` | internal/edge/replay/replay.go:70-88 | an event that a drain can put back after another has had one accepted that is not older can be delivered after it, by a later reconnect |
| `Reconnects.BusyReconnectBreaksOrder` | internal/edge/tunnelserver.go:152-161 | a reconnect that reads a list with something in it while the old drain waits for an answer does not keep the order safe |
| `Reconnects.BusyReconnectIsReachable` | internal/edge/tunnelserver.go:152-161 | a run from the start to such a reconnect |
| `Workers.StepKeepsInv` | internal/edge/replay/replay.go:64-107 | every statement and response of any worker keeps the invariant on rows, workers and logged responses |
| `Workers.ReplayingIsAttended` | internal/edge/replay/replay.go:64-107 | in every interleaving an event in replaying has a worker inside ReplayEvent for it, or a manual replay of it ran out of time before its last update |
| `Workers.UnattendedIff` | internal/control/server.go:312-314 | an event in replaying loses its last worker inside ReplayEvent exactly when that worker's context ends before its last update |
| `Workers.AlwaysAttended` | internal/edge/replay/replay.go:64-107 | so without such an expiry every event in replaying has a worker inside ReplayEvent |
| `Workers.OneOpenSession` | internal/edge/session.go:38-45 | in every interleaving a tunnel has at most one session that can open streams, the registry's |
| `Workers.HangupCloses` | internal/edge/session.go:19-25 | a session that hangs up opens no more streams; every other opens them exactly as before |
| `Workers.ForgetRemoves` | internal/edge/session.go:56-62 | after a finished handler's Remove no tunnel has that session, and every other entry is as it was |
| `Workers.ConnectReplaces` | internal/edge/session.go:38-45 | a new session takes over its tunnel and closes the one it replaces and no other |
| `Workers.OthersLeaveSessions` | internal/edge/tunnelserver.go:153-177 | no other step changes the registry or what is open |
| `Workers.FindPicks` | internal/control/server.go:299-314 | a manual replay goes on over the session that is registered for its tunnel, and with none it ends and leaves the row as wiped |
| `Workers.FinishedIsNeverFound` | internal/edge/tunnelserver.go:176-177 | over every run a session whose handler has removed it is never the one a manual replay goes on over |
| `Workers.StreamsGoToTheOwner` | internal/edge/replay/replay.go:29-54 | in every interleaving a stream for an event is opened only on the registered session of the event's own tunnel |
| `Workers.StartReads` | internal/edge/tunnelserver.go:147-161 | the drain of a session lists the queue of the session's tunnel, or nothing if the tunnel could not be looked up |
| `Workers.ClearRemoves` | internal/store/events.go:152-155 | a clear takes exactly its tunnel's rows, and the workers on them are not told |
| `Workers.VerdictsAreBacked` | internal/store/events.go:120-144 | in every interleaving delivered means the app answered below 500 and the recorded status is one of its answers, dead means at least 5 answers with a 5xx among them, and attempts plus uncounted answers never exceed the answers |
| `Workers.NothingIsLost` | internal/store/events.go:152-155 | in every interleaving an event ever enqueued is in the table or was cleared |
| `Workers.CountIsBacked` | internal/store/events.go:130-137 | the count that the first statement of MarkFailed reads back is backed by logged answers |
| `Overlap.SoloReplayIsSequential` | internal/edge/replay/replay.go:64-107 | the steps of a worker nobody disturbs make up exactly the sequential ReplayEvent |
| `Overlap.ExclusiveRowsWellFormed` | internal/edge/replay/replay.go:64-107 | if no worker starts on an event another holds, every event nobody works on has a well-formed row, however the workers interleave |
| `Overlap.OverlapIsReachable` | internal/edge/tunnelserver.go:152-161 | two drains of one tunnel can both have listed an event, the older one's session being closed by then |
| `Overlap.DeliveryCanBeUndone` | internal/edge/replay/replay.go:70-76 | the younger delivers it, and the older, which cannot open a stream, puts it back in the queue |
| `Overlap.DeliveredTwice` | internal/edge/replay/replay.go:70-76 | the next drain lists it again, and the app can accept it twice |
| `Overlap.DeathCanBeUndone` | internal/edge/replay/replay.go:70-76 | in the same way a fifth failure is undone and the attempts start over |
| `Overlap.SlowSettleRevives` | internal/store/events.go:130-144 | five manual replays at once, whose MarkFailed are two statements each, can leave a dead event queued again with 5 attempts used |
| `Finality.DeliveryFinalIff` | internal/store/events.go:115-150 | in every state that can be reached a delivery is final, short of another manual replay, exactly if no worker can still come to the event in its list and none is on it but to record an acceptance; on a closed session a drain comes to the first of its list at most |
| `Finality.DeathFinalIff` | internal/store/events.go:115-150 | a death is final exactly if no worker can still come to the event and none is on it but to count a failure that makes at least five |
| `Finality.StrandedIff` | internal/control/server.go:312-314 | an event in replaying stays there exactly if no worker can come to it and none is on it |
| `Finality.StrandedIsReachable` | internal/control/server.go:312-314 | a run from the start that strands an event |
| `Finality.NeverAgainIff` | internal/edge/replay/replay.go:64-107 | the app has accepted an event for the last time, short of another manual replay, exactly if its row is there, is not queued and nobody can put it back, or is gone and nobody can give it to the app any more |
| `Finality.UntouchedRowsStay` | internal/edge/replay/replay.go:64-107 | a row that is not queued and that no worker can come to or is on stays identical until it is cleared or replayed by hand |
| `RateLimit.IPLimiter.SweepLocked` | internal/edge/ratelimit.go:66-76 | deletes exactly the entries idle for longer than the limit, and nothing within one limit of the last sweep |
| `RateLimit.IPLimiter.Allow` | internal/edge/ratelimit.go:44-61 | sweeps, takes a token from the key's bucket, making a full one if there is none, and notes the call |
| `RateLimit.CallForgets` | internal/edge/ratelimit.go:51-75 | key by key: when a sweep is due a call forgets exactly the other keys idle for longer than the limit, else none, and changes no entry but its own |
| `RateLimit.SweepsAreApart` | internal/edge/ratelimit.go:63-70 | whatever the clock does, no two sweeps of a run are less than the idle limit apart |
| `RateLimit.OnlyRecentKeysAreHeld` | internal/edge/ratelimit.go:28-30 | over every run a key that is still held was seen within the last two idle limits |
| `RateLimit.CallKeepsMatch` | internal/edge/ratelimit.go:44-76 | one call on the forgetting and the unbounded table gives one answer and keeps them matched |
| `RateLimit.ForgettingIsUnobservable` | internal/edge/ratelimit.go:44-76 | on every call sequence, sweeping and forgetting give the answers of never forgetting |
| `RateLimit.GrantRefills` | internal/edge/ratelimit.go:46-60 | a bucket that gives a token is full again before its key can be forgotten, whichever way the two clock reads of the call lie |
| `RateLimit.UnobservableIff` | internal/edge/ratelimit.go:46-76 | for every bound on the time between the two clock reads of a call, that holds exactly if a bucket that gave one token, and one that was empty but for what accrued between the reads, refill before their key can be forgotten |
| `RateLimit.TooShortShows` | internal/edge/ratelimit.go:66-76 | otherwise some sequence of calls tells the difference |
| `RateLimit.RateTimesTTL` | internal/edge/ratelimit.go:31-40 | rate times what the idle limit exceeds the gap by, if at least burst, is enough; for clock reads taken as one, rate times idle limit |
| `RateLimit.DefaultsQualify` | internal/edge/router.go:71-101 | with the default rates, the limiters that the edge and the control API build meet the premise; configured rates need not |
| `RateLimit.SecondOfTokens` | internal/edge/ratelimit.go:31-38 | a rate per second accrues just that in a second |
| `RateLimit.GrantsAreBounded` | internal/edge/ratelimit.go:51-60 | in every window of every run a key is allowed at most burst plus rate times length calls, across evictions and re-creations |
| `RateLimit.KeysAreIndependent` | internal/edge/ratelimit.go:44-61 | a key's answers are those it would get alone |
| `RateLimit.RefillIsProduct` | internal/edge/ratelimit.go:51-60 | what accrues in d nanoseconds is rate times d |
| `Snapshots.SnapshotStore.SumBytes` | internal/store/snapshots.go:57-61 | the sum of the tunnel's body sizes |
| `Snapshots.SnapshotStore.DeleteOldest` | internal/store/snapshots.go:63-67 | deletes one oldest row of the tunnel and returns its size; none only if there is none |
| `Snapshots.SnapshotStore.PutSnapshot` | internal/store/snapshots.go:36-77 | total is always the true sum, the no-rows break is unreachable, the loop ends under the cap with exactly the evicted table of the specification |
| `Snapshots.SnapshotStore.GetSnapshot` | internal/store/snapshots.go:79-98 | the row of that key, or not found |
| `Snapshots.SnapshotStore.SnapshotStats` | internal/store/snapshots.go:105-111 | number and total size of the tunnel's rows |
| `Snapshots.EvictsAsLittleAsPossible` | internal/store/snapshots.go:62-75 | of all ways to drop oldest rows until under 100 MiB the loop drops the least; other tunnels lose nothing |
| `Snapshots.NewestSurvives` | internal/store/snapshots.go:62-75 | a body no larger than the cap survives its own eviction pass |
| `Snapshots.CacheAgreesWithLog` | internal/store/snapshots.go:47-76 | the invariant of every run of puts: agreement with the log of writes, every tunnel under the cap, and the premises of the next put |
| `Snapshots.PresentIsLastWrite` | internal/store/snapshots.go:47-54 | after any run of puts a present key holds exactly its last write |
| `Snapshots.LaterIsPresent` | internal/store/snapshots.go:62-75 | per tunnel the present keys are the most recently written ones: whatever was last written after a present key is present |
| `Snapshots.NeverOverCap` | internal/store/snapshots.go:34-35 | after any run of puts no tunnel holds more than 100 MiB |
| `Snapshots.LastPutIsPresent` | internal/store/snapshots.go:47-76 | the latest put reads back as written if it is no larger than 100 MiB |
| `Tee.CappedBuffer.Write` | internal/edge/proxy.go:98-107 | for any chunking the buffer is over exactly if more bytes came than the limit, else it holds them all |
| `Tee.StoredHeaders` | internal/edge/snapshot/snapshot.go:63-72 | first values of the headers that are neither hop-by-hop nor cookies |
| `Tee.KeptIff` | internal/edge/snapshot/snapshot.go:25-81 | a header is kept, with its first value, exactly if it has one and its name is none of the ten in any case |
| `Tee.ForwardAndStore` | internal/edge/proxy.go:61-90 | the client gets every byte; a whole, cacheable response of at most 20 MiB is in the cache byte for byte afterwards, any other leaves the cache alone |
| `Sessions.Registry.Put` | internal/edge/session.go:38-45 | makes the session current and closes exactly the one it replaces |
| `Sessions.Registry.Get` | internal/edge/session.go:47-52 | the current session, if any |
| `Sessions.Registry.Remove` | internal/edge/session.go:56-62 | deletes the session only while it is current |
| `Presence.Presence.Heartbeat` | internal/store/presence.go:32-34 | the key lives for fifteen seconds from now |
| `Presence.Presence.IsOnline` | internal/store/presence.go:37-40 | whether the key is there and unexpired |
| `Presence.Presence.Clear` | internal/store/presence.go:43-45 | deletes the key, whoever wrote it |
| `Connections.OneOpenSession` | internal/edge/session.go:38-62 | over any interleaving every open session that was ever put is the current one, so a subdomain has at most one |
| `Connections.StaleRemoveIsHarmless` | internal/edge/session.go:54-62 | a late disconnect handler never takes an open session out of the registry |
| `Connections.StepKeepsInv` | internal/edge/tunnelserver.go:152-185 | every connect, put, heartbeat, close, remove, clear and tick keeps the invariant on registry, ranks and keys |
| `Connections.OfflineIsALateClear` | internal/edge/tunnelserver.go:166-185 | while an open session's subdomain is offline, an earlier connection's Clear came after the session's last heartbeat, and that heartbeat is at most five seconds ago, so a gap is no longer than that |
| `Connections.OnlyClearsOpenOutages` | internal/edge/tunnelserver.go:177-178 | a served subdomain goes offline only by a Clear, and each by another connection's |
| `Connections.OutagesAreFew` | internal/edge/tunnelserver.go:177-178 | outages never outnumber the subdomain's earlier connections |
| `Connections.SilentMeansOffline` | internal/store/presence.go:10-12 | without a further heartbeat a subdomain is offline after fifteen seconds, and before that only by a Clear since its last heartbeat |
| `Connections.BeatRenews` | internal/edge/tunnelserver.go:166-175 | a heartbeat moves the end of its own key fifteen seconds off, the next heartbeat is five seconds later, and no other key or connection changes |
| `Connections.ClockShowsTimePassed` | internal/edge/tunnelserver.go:166-185 | over every run the clock shows the time its steps let pass |
| `Connections.PromptHandlersKeepOnline` | internal/edge/tunnelserver.go:166-185 | if no connection is put while an earlier handler is unfinished, an open session's subdomain is never offline |
| `Uptime.StaysOnlineIff` | internal/edge/tunnelserver.go:166-185 | in every reachable state a served session is sure to stay online, as long as no connection of its subdomain is put, exactly if it is online and every other connection put on the subdomain has finished its handler |
| `Connections.UnreplacedClearOpensOutage` | internal/edge/tunnelserver.go:176-178 | a connection that nobody replaced can still take its successor offline |
| `Migrations.Database.Migrate` | internal/store/store.go:49-105 | applies exactly the missing names in order up to the first failure, effects and records alike, and succeeds exactly if nothing fails |
| `Migrations.MigrateExtendsPrefix` | internal/store/store.go:75-103 | a database with the first k scripts ends with the first k', all of them on success; with all of them nothing changes |
| `Migrations.SuccessMeansAllApplied` | internal/store/store.go:75-104 | whatever was there before, success leaves every name applied |
| `MigrationLock.StepKeepsOwn` | internal/store/store.go:56-103 | a step by any caller keeps the committed scripts a prefix, and commits only if that caller holds the lock |
| `MigrationLock.CommittedIsPrefix` | internal/store/store.go:46-105 | for any number of callers, failures and broken connections: the committed scripts are a duplicate-free prefix with their effects, and success means all of the caller's are applied |
| `MigrationLock.OnlyHolderCommits` | internal/store/store.go:56-61 | only the lock holder commits, and only the next script of the list |
| `MigrationLock.NoCallFailsByItself` | internal/store/store.go:36-41 | without outside faults no call fails: no insert meets another caller's row |
| `MigrationLock.SomeoneCanMove` | internal/store/store.go:56-61 | no deadlock: while a call is unfinished, it or the lock holder can move |
| `MigrationLock.CallsAreShort` | internal/store/store.go:75-103 | a call that embeds n scripts is done after at most 4n + 4 of its own steps |
| `MigrationLock.FaultsLeave` | internal/store/store.go:85-102 | a failed statement and a broken connection commit nothing, the latter frees the lock, and a commit whose reply is lost is carried out though its call ends in an error |
| `MigrationLock.AloneItSucceeds` | internal/store/store.go:46-105 | from every state in which a call has not failed and nobody else holds the lock, its own statements bring it to success with exactly its own scripts applied on top of those that were |
| `Routing.RoutesIff` | internal/edge/router.go:180-191 | a host routes to a name exactly if the name has no upper case and the host is, letter for letter in any case, that name, a dot and the base |
| `Routing.ApexHosts` | internal/edge/router.go:180-191 | the base itself in any case is the apex, and so is every host that is not under it |
| `Routing.LowerOnlyLowers` | internal/edge/router.go:181-182 | lower-casing changes nothing but the case of letters, and leaves no upper case |
| `Routing.SameNameIff` | internal/edge/router.go:181-182 | two names lower to the same exactly if they are the same letter for letter in any case |
| `Routing.HostRoutesBack` | internal/edge/tunnelserver.go:212-220 | a host that is, letter for letter in any case, a claimable name under the base routes to that name, and under no other name's host |
| `Routing.NameLengths` | internal/edge/tunnelserver.go:22 | names have exactly 3 to 63 characters |
| `Routing.NameCharacters` | internal/edge/tunnelserver.go:22 | names consist exactly of lower-case letters, digits and inner hyphens |
| `Routing.BucketsAreShared` | internal/edge/router.go:116 | two requests share a bucket exactly if address and tunnel are the same |
| `Tunnels.TunnelStore.ClaimTunnel` | internal/store/tunnels.go:24-62 | succeeds exactly if the name is then the caller's; ids and owners never change; the new rules are stored, the reported ones are those before |
| `Tunnels.RandomNamesAreValid` | internal/edge/tunnelserver.go:223-227 | every generated name matches the pattern for names |
| `Tunnels.Authenticate` | internal/edge/tunnelserver.go:187-221 | each refusal has its exact cause, in this order: the version is not 1, the token is unknown, the name does not match the pattern, another account owns it; no other refusal occurs; accepted, the reported URL names the tunnel the table now holds for that user |
| `Claims.StepKeepsInv` | internal/store/tunnels.go:24-62 | every statement of every claim keeps the table and all results of claims consistent |
| `Claims.OwnershipIsForEver` | internal/store/tunnels.go:24-62 | once a tunnel exists nothing changes its id or owner |
| `Claims.OneUserEverSucceeds` | internal/store/tunnels.go:24-62 | all claims of a name that succeed are one user's and name one tunnel; a claim is refused as taken only if another user owns the name |
| `Claims.ClaimedHostFindsTunnel` | internal/edge/tunnelserver.go:216-220 | a request to the public host of a claimed name finds the claimed tunnel |
| `Claims.SoloClaimIsSequential` | internal/store/tunnels.go:24-62 | a claim nobody disturbs ends as the one-at-a-time ClaimTunnel |
| `Claims.FaultsAreReported` | internal/store/tunnels.go:31-59 | a statement that does not end well ends its claim in an error; the table is as it was, or, if the statement took effect, as it would be without the fault |
| `Claims.ClaimSucceedsIff` | internal/store/tunnels.go:31-59 | in every interleaving a claim whose own statements run succeeds exactly if at its select the name was its user's, or was free and no other insert of it came before the claim's own |
| `Claims.OwnerOfOldNameSucceeds` | internal/store/tunnels.go:48-59 | so a claim on a name that is its user's when it starts never fails |
| `Claims.OwnerCanFail` | internal/store/tunnels.go:37-45 | of two racing first claims of one user one ends in an error |
| `Edge.Router.ServeHTTP` | internal/edge/router.go:104-149 | exactly one limiter is charged; a request goes to the live session exactly if allowed, known, online and registered |
| `Edge.TenantsDoNotThrottle` | internal/edge/router.go:57-62 | an address is allowed on a tunnel what it would be allowed without any other address or tunnel |
| `Offline.ReadLimited` | internal/edge/offline.go:37-41 | at most limit bytes, and an error only if the stream breaks before |
| `Offline.BufferWebhook` | internal/edge/offline.go:36-59 | 202 exactly for a whole body of at most 5 MiB that was stored, with the id of the new row that holds every byte; each refusal has its exact cause and leaves the table alone |
| `Offline.DecimalIff` | internal/edge/offline.go:56-77 | the text of a number is the one numeral, digits only and without a leading zero, that reads as that number, so different events get different ids |
| `Offline.AcknowledgedReachesApp` | internal/edge/offline.go:50-58 | over any run an acknowledged webhook stays as stored until cleared, and any drain that sends it sends it as stored but for the two headers |
| `Offline.HostIsLost` | internal/edge/offline.go:49-50 | for every request that the router sends here, what goes out is what came in but for the two headers and the host, which is always lost |
| `Offline.ServeSnapshot` | internal/edge/offline.go:61-80 | not found is unavailable; what is not HTML is served with its headers as it was stored; HTML gains the banner at the chosen place and the length it then has |
| `Offline.HTMLIff` | internal/edge/offline.go:82-84 | HTML is exactly what begins with "text/html", whatever follows |
| `Offline.ServeOffline` | internal/edge/offline.go:24-34 | webhooks get 202 with the id of their row or the refusal whose exact cause applies; a GET or HEAD with a snapshot gets the page of that key, its headers, body and, for HTML, banner; everything else is unavailable; only a 202 changes the queue |
| `Banner.InjectBanner` | internal/edge/snapshot/snapshot.go:85-101 | the output is the page with the banner at the chosen place, or no output if that lies beyond the page |
| `Banner.TagInAnyCase` | internal/edge/snapshot/snapshot.go:92-93 | what the banner is to go before is `</body>` byte for byte, each letter in either case |
| `Banner.RightPlaceIff` | internal/edge/snapshot/snapshot.go:92-98 | for every page the chosen place is before the last `</body>` in any case, or the end, exactly if lower-casing keeps the length of what precedes the tag |
| `Banner.PanicsIff` | internal/edge/snapshot/snapshot.go:93-97 | the handler stops exactly if what precedes the tag lowers to more bytes than the page has |
| `Banner.AsciiIsRight` | internal/edge/snapshot/snapshot.go:83-101 | in every ASCII page the banner goes where it belongs |
| `Banner.ElementIsBanner` | internal/edge/snapshot/snapshot.go:86-90 | the banner as built opens an element and closes no body |
| `Banner.BannerSitsBeforeTag` | internal/edge/snapshot/snapshot.go:92-100 | in the output the banner ends where the last tag begins, or at the end |
| `Banner.BannerComesOff` | internal/edge/snapshot/snapshot.go:92-100 | from the output of an ASCII page alone the page can be recovered |
| `Banner.StrayBytes` | internal/edge/snapshot/snapshot.go:92-97 | n invalid bytes before the tag: misplaced exactly if n is not 0, no output exactly from 4 on |
| `Backoff.Jitter` | internal/agent/agent.go:62-64 | between half the delay and the delay |
| `Backoff.Run` | internal/agent/agent.go:36-60 | every wait of every run lies between half its nominal delay and that delay |
| `Backoff.WaitsAfterFailures` | internal/agent/agent.go:29-60 | n failures after a healthy session make the nominal delay min(30 s, 500 ms doubled n times), so waits lie in [250 ms, 30 s], and from the sixth failure on are at least 15 s |
| `Backoff.EveryWaitIsBounded` | internal/agent/agent.go:29-64 | every wait of every run lies in [250 ms, 30 s] |

## Left out

Premises of the model:

- Store writes succeed, and neither server nor agent crashes in the middle of an operation, except where the model has a step for it (`MigrationLock`, `Claims`, `Offline.BufferWebhook`). A failed requeue or a crash strands an event in replaying. The deadline of a manual replay is modelled, as a step of `Workers`. A closed session opens no stream; a stream opened before may still yield the answer that had come in by then.
- Receipt times do not run backwards as ids grow, in the results about order. Tunnel ids start at 1, as the table makes them.
- Snapshot transactions are serialized and their times strictly increase; ties and concurrent READ COMMITTED transactions are not modelled.
- A subdomain counts as served from its session's first heartbeat on, not from its registration a moment before. Heartbeats succeed and are on time, the key store's clock is the server's, and commands take effect at once.
- The token bucket is the library's as documented: it starts full, a refused call changes nothing, a clock that steps back adds nothing. Rates are reals, without floating-point rounding, and fractions where exactness is claimed; times are whole nanoseconds.
- Integers are unbounded: the widths of ids, counters and durations in the database and in Go are not modelled.
- Embedded migration files are the sorted list of distinct names; a build may be older and embed fewer of them, but not others.
- Header names and hosts are ASCII, where folding and lower-casing are byte by byte.

Not modelled:

- Networks, TLS, yamux streams, WebSocket passthrough, request and response parsing, network timeouts. A stream is an outcome: it cannot be opened, breaks on write or read, or yields a status.
- The bytes of a replayed request on the wire: the path is stored decoded and Go's request writer decides the rest, so README.md's "byte-identical" is proved only for method, path, query, headers and body.
- The SQL engine, JSON columns and the hash of the query string; tables are maps with atomic statements, the hash is part of the key.
- `handleConn` and `heartbeatLoop` as running goroutines: each of their effects is a step of `Connections`, over the same functions that the methods of `Sessions` and `Presence` are verified against.
- Server shutdown, the context's cancellation in the middle of a drain, and the ignored errors that are only logged.
- Which requests are webhooks and which responses are cacheable (`internal/edge/classify`, `Cacheable`): booleans here.
- Passwords, tokens, sign-up and log-in, `internal/store/users.go`; a token is looked up in a map.
- Landing page, dashboard, HTML texts, listing endpoints, command line, configuration.
- Formatting of times (RFC 3339, the banner's local time): parameters.
- The aliasing of the page's buffer by the append in `InjectBanner`; sequences are values.
- The Unicode lower-case table: a character is its bytes and the bytes of its lower case, of which the model uses only that no character outside ASCII lowers to a byte of `</body>`.
