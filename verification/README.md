# Verified model of the charging console

The console shows operators the state of electric-vehicle chargers, sends them commands, keeps an
event log, and manages the alert configuration around them. This project models the parts of it that
carry state or algorithms, and proves what they promise over every input and every run. Check it with
`dafny verify dfyconfig.toml` (Dafny 4.11).

Code that works by changing things is a class or a method with a loop. Each of those equals a
function of the values before, and the laws are proved about the functions. Runs are sequences of
steps or operations in any order.

## The device-event log

One NDJSON file per charger and month. `Ndjson` is the backward reader that takes a file in chunks
and carries a partial line; `EventFiles`, `TailReader` and `EventSearch` put files together into a
tail and into pages; `EventLogWriter` is the append and group-commit protocol with its interleavings;
`LogRoundTrip` joins writer and reader; `MonthKeys` and `Retention` are the month arithmetic and the
pruning built on it. The JSON codec is an abstract pair of functions: decoding undoes encoding, and an
encoded event has no raw newline, since section 7 of RFC 8259 has control characters escaped.

Found here:

- `flush` waits only for the fsyncs it started itself. With a timer flush still out it returns although
  a resolved line is not on disk (`SecondFlushReturnsEarly`); `FlushDeliversIff` is the exact condition.
- The search cursor is a timestamp and resumption is strict, so two hits of one timestamp can be split
  by a page end and one is lost (`TieIsLost`, `PaginationNeedsDistinctTimes`).
- Appends to one file are not queued. If two writes land in the other order, a tail can return the older event
  in place of the newer one (`SwappedLandings`).
- `Date.UTC` reads years 0 to 99 as 1900 to 1999, so month order and prune order differ there: pruning keeps
  every month from the cutoff on exactly when the cutoff is in the year 100 or later
  (`KeepsMonthsFromCutoff`), and deletes every earlier one too exactly from the year 2000 on (`DatedIff`).

## The subscription protocol

`WsClient` is the browser's client, `SubscriptionBroker` the server's broker and dispatch. `Subscriptions`
puts them together with two first-in-first-out queues and the server's unfinished work, and its steps
may come in any order: subscribe, call, unsubscribe, connect, open, server takes a message, snapshot
ready or failed, gateway answers or fails, event, deltas ready, client takes a message, close. Two
conservation laws (where each request id and each subscription id is) are the core of the invariant that
`SubscriptionSteps` proves for each step; `SubscriptionLaws` and `SubscriptionOrder` draw the conclusions
over whole runs. `SubscriptionService` says what each request, event and reply leads to, and from which
earlier step every outcome comes; `SubscriptionLives` is a run in which a subscription is served.

Found here:

- An open asks again for every active subscription and leaves the old entry, so entries double with each
  reconnect (`OpenAddsActive`), and a handle from before a reconnect no longer ends its subscription
  (`OldHandleDoesNotEnd`); over every run it does as long as no open found it (`HandleEndsUnlessReopened`).
- A comment in the client says that calls made while disconnected are rejected. The code keeps them
  waiting: they are never sent, and the first close after them rejects them (`OfflineCallWaits`).

## The command transcript

`Transcript` is the ring of 200 commands with its pause buffer and snapshot. Pausing is invisible after a
resume (`PausingIsInvisible`), and `TranscriptTales` says field by field what an entry then shows.

Found here: a callback that throws after a good answer completes its id twice, and a pause then loses the
response (`ThrowingCallbackLosesResponse`; `TwiceWhilePaused` is the exact condition); two completions of
one command kind during a pause leave its form disabled (`InFlightCanStick`; `InFlightExactIff` is the exact
condition over runs, and without a pause it never happens, `NeverPausedNeverSticks`).

## Diagnostics uploads

`Diagnostics` is the table of one-use tokens, the upload handler and the files. The handler runs without
an await between lookup and consume, so it is one operation with two looks at a clock that never goes
back; a write may fail leaving any file, and a removal may fail.

Found here: with explicit request ids, or charger ids that sanitising maps to one name, two rows can share
a file and the recorded digest becomes wrong (`SharedPathFromEmpty`; `IssueKeepsPathsIff` is the exact
condition).

## Notification channels

`ChannelDocs` turns channels into the Alertmanager document and back, `ChannelSecrets` masks secrets for
the browser and merges them when it saves, `ChannelRoutes` is the requests that edit channels through the
file, and Alertmanager's choice of receiver. `ChannelOutcomes` says what each request answers and leaves, and
where alerts then go. `ChannelUrls` states what the URL parser does with a masked text.

Found here:

- The module comment says that an empty secret keeps the stored one, and the merge does so for empty and
  masked ones. The body check comes first. It refuses the empty text for every slack and webhook URL and every
  telegram token, so the documented way works for e-mail alone (`EmptyUrlIsRefused`, `SavingBlankIff`). It
  refuses most masks too: every telegram token, every URL of at most 32 characters - the form's own example
  among them - and a longer URL whose mask is no URL any more, for instance cut at its port. The exact
  condition for every body with empty or masked secrets is `SavingUnchangedIff`, with `SavingTheMaskIff` for
  the mask as it was shown (`PathMaskPasses`, `ExampleIsRefused`).
- A stored e-mail password or bearer token goes only when the channel changes its type, so a webhook with a
  bearer token cannot be switched to basic authentication (`SavedSecretsIff`, `BearerSticks`).
- An explicit empty override is written once and silently becomes the managed template on the next save of
  any channel (`NextSaveKeepsReceiverIff`).
- Chat ids are kept as text so that wide ones survive, but they pass through a double; one that prints in
  scientific notation becomes a one-digit chat id on the second save (`WideChatCollapses`), and one that prints
  as other digits is another chat at once. `ChatKeptIff` says which ids last.

## Alert rules, proof of work, connectors

`RuleGroups` edits one group of a rule file and keeps the others. `ProofOfWork` is the login puzzle: its bit
test, verifier and solver; HMAC, SHA-256 and the payload codec are abstract, with the base64url alphabet of
section 5 of RFC 4648 free of dots. Its verifier is documented to answer null or one of four codes, and
throws for a signature of the right length that is not ASCII (`ThrowsIff`). `Connectors` folds status events
into a charger's row.

`TextOrder`, `Texts`, `StableSort`, `Sequences`, `Tally`, `Bytes`, `Options` and `Wire` are shared vocabulary.

## Model

| member | source | states |
|---|---|---|
| `MonthKeys.KeyOfIndex` | apps/server/src/event-log/paths.ts:19-22 | Every well-formed month key is the key of exactly one month: making a key from a month and reading the month from a key undo each other. |
| `MonthKeys.KeyOrder` | apps/server/src/event-log/paths.ts:19-22 | Comparing month keys as text is comparing months in time, for all four-digit years, and different months have different keys. |
| `MonthKeys.StepBack` | apps/server/src/event-log/search.ts:127-137 | One step back from any month key is the key of the month before, across a year boundary too. |
| `MonthKeys.BeforeYearZero` | apps/server/src/event-log/search.ts:127-137 | The step back from the first month of year 0 is a text below every month key, so the downward walk still ends there. |
| `MonthKeys.OffsetIsDecrements` | apps/server/src/event-log/retention.ts:76-83 | Shifting a month by -n in one computation is n single steps back, and both give the month n earlier. |
| `MonthKeys.MonthsInRange` | apps/server/src/event-log/search.ts:114-125 | The walk from the month of `to` down to the month of `from` terminates and returns the descending list of the range. |
| `MonthKeys.RangeIsComplete` | apps/server/src/event-log/search.ts:114-125 | A month is in that list if and only if it lies between the two ends. |
| `MonthKeys.RangeDescends` | apps/server/src/event-log/search.ts:114-125 | The list is strictly descending, so no month occurs twice. |
| `Ndjson.SplitResumes` | apps/server/src/event-log/tail.ts:97-103 | Splitting a text at newlines can be resumed from the first line of any tail of it; this is why holding back one partial line loses nothing. |
| `Ndjson.CollectLines` | apps/server/src/event-log/tail.ts:104-112 | The inner loop adds the wanted events of one chunk, last line first, and stops at the limit. |
| `Ndjson.ChunkRead` | apps/server/src/event-log/tail.ts:90-114 | Reading one chunk and then the rest of the file with the held-back line gives what reading the whole gives. |
| `Ndjson.ReadBackwards` | apps/server/src/event-log/tail.ts:74-119 | For every file content, every chunk size from 1, every filter and limit: the backward chunked reader returns exactly the last wanted parseable lines of the whole file split at newlines, newest first. |
| `StableSort.SortCorrect` | apps/server/src/event-log/tail.ts:49-50 | Sorting by timestamp gives the same events, in descending order. |
| `StableSort.SortStays` | apps/server/src/event-log/tail.ts:49-50 | Sorting leaves events that are already newest first as they are: ties are not reordered. |
| `EventFiles.MonthsMakeTheLog` | apps/server/src/event-log/tail.ts:38-48 | A log in time order is put together again from its months, latest month first, with nothing lost or repeated. |
| `EventFiles.MonthNameIff` | apps/server/src/event-log/paths.ts:26-39 | A file name stands for a month if and only if it is that month as four digits, a dash and two digits, with the suffix .ndjson. |
| `EventFiles.FilesGiveTheLog` | apps/server/src/event-log/tail.ts:38-48 | Reading the month files of a directory that holds a log gives the wanted events of that log, newest first, as soon as the months walked include theirs. |
| `EventFiles.ReadMonths` | apps/server/src/event-log/tail.ts:38-48 | The loop over months equals taking the first `limit` events of all files together; months without a file are passed over. |
| `TailReader.ListMonthsDescending` | apps/server/src/event-log/tail.ts:57-72 | The directory listing is reduced to its month names, latest first. |
| `TailReader.ListedMonths` | apps/server/src/event-log/tail.ts:57-72 | Every month that has a file is listed, each once, strictly descending. |
| `TailReader.TailLastN` | apps/server/src/event-log/tail.ts:32-52 | tailLastN, for every chunk size, is the closed form that reads whole files. |
| `TailReader.TailIsSorted` | apps/server/src/event-log/tail.ts:49-51 | Whatever the files contain, the answer is newest first and no longer than asked. |
| `TailReader.TailIsLastN` | apps/server/src/event-log/tail.ts:32-52 | When the files hold a log in time order, tailLastN answers its last `limit` events within the bounds, newest first. |
| `TailReader.TailFindsIff` | apps/server/src/event-log/tail.ts:38-48 | With room for all, the tail has an event if and only if it is in the log, not before the first bound and before the second; a bound that is missing or empty bounds nothing. |
| `EventSearch.SearchEvents` | apps/server/src/event-log/search.ts:40-101 | searchEvents, for every chunk size and limit, is one page of the hits found in the months of [from, to), with its next cursor. |
| `EventSearch.SearchReadsTheLog` | apps/server/src/event-log/search.ts:40-101 | When the files hold a log, those hits are exactly the events of the log that match in [from, to): the month walk misses nothing. |
| `EventSearch.SearchFindsIff` | apps/server/src/event-log/search.ts:64-112 | An event is on some page if and only if it is in the log, in the half-open range, before a cursor that is a date, and its kind, summary and detail joined by blanks and lower-cased include the lower-cased search text. |
| `EventSearch.SearchFindsWord` | apps/server/src/event-log/search.ts:103-112 | For a search text without a blank: if and only if the kind, the summary or the detail includes it, in either case; without a search text every event of the range is found. |
| `EventSearch.AfterCursor` | apps/server/src/event-log/search.ts:83-90 | Resuming after a hit gives exactly the hits after it, also when newer events have been appended. |
| `EventSearch.CursorFalls` | apps/server/src/event-log/search.ts:83-100 | The cursor strictly falls from page to page, so following it ends. |
| `EventSearch.WalkIsComplete` | apps/server/src/event-log/search.ts:40-101 | Following the cursor to its end gives every hit of the log once, newest first, for every page size and whatever newer events arrive between pages. |
| `EventSearch.PaginationNeedsDistinctTimes` | apps/server/src/event-log/search.ts:87 | Pagination is complete for every page size if and only if no two hits carry the same timestamp. |
| `EventSearch.TieIsLost` | apps/server/src/event-log/search.ts:87 | For any two hits with one timestamp there is a page size at which following the cursor loses one. |
| `EventLogWriter.Writer.OpenFor` | apps/server/src/event-log/writer.ts:133-151 | A handle is opened once per charger and month and then reused. |
| `EventLogWriter.Writer.Append` | apps/server/src/event-log/writer.ts:67-74 | append up to its await: the line goes to the file of its charger and month; after close it does nothing. |
| `EventLogWriter.Writer.AppendResolves` | apps/server/src/event-log/writer.ts:73-77 | The write coming back resolves its line and marks the handle dirty. |
| `EventLogWriter.Writer.Flush` | apps/server/src/event-log/writer.ts:98-112 | flush up to its await: every dirty handle becomes clean and gets an fsync of what is in the file at that moment. |
| `EventLogWriter.Writer.FlushResumes` | apps/server/src/event-log/writer.ts:104-111 | An fsync that succeeds makes what it covered durable; one that fails makes the handle dirty again. |
| `EventLogWriter.Writer.Close` | apps/server/src/event-log/writer.ts:80-96 | close stops the writer and flushes; a second call does nothing. |
| `EventLogWriter.StartSafe` | apps/server/src/event-log/writer.ts:39-47 | A new writer has nothing to lose. |
| `EventLogWriter.RunSafe` | apps/server/src/event-log/writer.ts:67-114 | In every interleaving of appends, writes coming back, flushes, and fsyncs that succeed or fail, a resolved line is durable, or its handle is dirty, or an fsync covering it is on its way. |
| `EventLogWriter.WriterSteps` | apps/server/src/event-log/writer.ts:67-125 | What each step does to each file: an append hands its line to the file of its own month and opens it; a landed line ends that file; a resolved append marks it dirty; a flush cleans each file and syncs exactly the dirty ones; only a successful fsync makes content durable, and a failed one makes the file dirty again. |
| `EventLogWriter.MarksAreEarned` | apps/server/src/event-log/writer.ts:97-125 | Over every run the durable part of a file is what its successful fsyncs covered, and the resolved part what its resolved appends reached. |
| `EventLogWriter.FlushDeliversIff` | apps/server/src/event-log/writer.ts:98-114 | A flush leaves every line resolved before it durable, in every later interleaving in which no fsync fails, if and only if no handle looked clean because of an earlier flush still waiting. |
| `EventLogWriter.SecondFlushReturnsEarly` | apps/server/src/event-log/writer.ts:98-114 | A run in which the second of two flushes returns while a resolved line is not on disk. |
| `LogRoundTrip.AppendedLine` | apps/server/src/event-log/writer.ts:72-75 | Appending an encoded event to a file of whole lines adds it as the newest event of the file. |
| `LogRoundTrip.RunConsistent` | apps/server/src/event-log/writer.ts:67-77 | In every run, each month file holds exactly the events landed for its charger and month, in order. |
| `LogRoundTrip.DirectoryHolds` | apps/server/src/event-log/writer.ts:67-77 | So the directory of a charger holds the log of that charger, whatever other chargers did. |
| `LogRoundTrip.WhatIsWrittenReadsBack` | apps/server/src/event-log/tail.ts:32-52 | Round trip from the files: after every interleaving of appends over chargers and months, if a charger's events landed in time order, tailLastN returns its last `limit` events, newest first. |
| `LogRoundTrip.AppendsAreKnown` | apps/server/src/event-log/writer.ts:67-77 | Over every run in which a charger's writes land in the order of its appends: appends in time order leave what is on its way and what has landed in time order, and without a failed write these are all the appends. |
| `LogRoundTrip.WhatIsAppendedReadsBack` | apps/server/src/event-log/tail.ts:32-52 | Round trip from the appends: if a charger's events are appended in time order and its writes land in that order, tailLastN returns the last `limit` wanted ones that have landed; without a failed write these and the ones on their way are all the appends. |
| `LogRoundTrip.SwappedLandings` | apps/server/src/event-log/writer.ts:67-77 | Two events of one month appended in time order whose writes land in the other order: a tail of one returns the older event. |
| `Retention.PruneDirectory` | apps/server/src/event-log/retention.ts:42-68 | One directory's turn removes exactly the month files that start before the cutoff, except those whose unlink fails, and adds each file's entry to `removed` or `errors`. |
| `Retention.RemovalsAreTheLoss` | apps/server/src/event-log/retention.ts:57-70 | `removed` tells of each file the directory lost, once, with its month and size; `errors` tells exactly of the files that should have gone and did not. |
| `Retention.PruneEventLog` | apps/server/src/event-log/retention.ts:32-74 | Of every readable directory exactly the month files that can be deleted and are dated more than `retention` months before now are gone; everything else is there with its content; the removals are the files that went, each once, and the errors are the unreadable directories and the month files that should have gone. With a cutoff in the year 2000 or later the months that stay are those not more than `retention` months back. |
| `Retention.DatedIff` | apps/server/src/event-log/paths.ts:41-44 | Dating a month as Date.UTC does and counting it agree for every month if and only if the cutoff is in the year 2000 or later; from the year 100 on they agree for all months from there on. |
| `Retention.PruneAgain` | apps/server/src/event-log/retention.ts:32-74 | Pruning again, also with a later cutoff, is pruning once with the later cutoff. |
| `Retention.KeepsMonthsFromCutoff` | apps/server/src/event-log/paths.ts:41-44 | No month at or after the cutoff month is deleted, if and only if the cutoff year is 100 or later (Date.UTC reads years 0 to 99 as 1900 to 1999). |
| `Retention.PruneKeepsSearches` | apps/server/src/event-log/retention.ts:32-74 | Pruning changes no search whose range starts at or after the cutoff month. |
| `WsClient.ConsoleClient.RequestId` | apps/web/src/api/ws-client.ts:147-149 | Request ids are handed out in order and never again. |
| `WsClient.ConsoleClient.Send` | apps/web/src/api/ws-client.ts:151-160 | A message goes out if and only if the socket is open; otherwise nothing is sent or kept. |
| `WsClient.ConsoleClient.SubscribeTo` | apps/web/src/api/ws-client.ts:119-137 | subscribe keeps the query, parameters and handlers under a new request id and sends the request when open. |
| `WsClient.ConsoleClient.CallRpc` | apps/web/src/api/ws-client.ts:139-145 | rpc keeps its promise under a new id and sends the request only when open. |
| `WsClient.ConsoleClient.UnsubscribeFrom` | apps/web/src/api/ws-client.ts:305-319 | unsubscribe of an id that is not active does nothing; otherwise the entry goes and, when open, one message is sent. |
| `WsClient.ConsoleClient.ResendPending` | apps/web/src/api/ws-client.ts:174-184 | On open, each pending subscription is sent again under the id it has. |
| `WsClient.ConsoleClient.ReissueActive` | apps/web/src/api/ws-client.ts:185-204 | On open, each active subscription becomes a new pending request that is sent; the active entry stays. |
| `WsClient.ConsoleClient.OnOpen` | apps/web/src/api/ws-client.ts:167-205 | Both loops together: the new state and everything that goes out. |
| `WsClient.ConsoleClient.HandleServerMessage` | apps/web/src/api/ws-client.ts:249-303 | Each server message changes the three maps and runs, rejects or settles as the source does, also when its id is unknown. |
| `WsClient.ConsoleClient.OnClose` | apps/web/src/api/ws-client.ts:327-332 | A close rejects every waiting rpc once with "disconnected", forgets them, and keeps every subscription. |
| `SubscriptionBroker.Broker.RegisterConnection` | apps/server/src/broker/broker.ts:42-48 | A connection starts without subscriptions. |
| `SubscriptionBroker.Broker.RemoveConnection` | apps/server/src/broker/broker.ts:50-52 | A connection goes with all its subscriptions and no other connection changes. |
| `SubscriptionBroker.Broker.SubscribeCompletes` | apps/server/src/broker/broker.ts:64-73 | A subscription is added only when its snapshot has come, and only to a connection that is still there. |
| `SubscriptionBroker.Broker.Unsubscribe` | apps/server/src/broker/broker.ts:76-80 | Exactly the named subscription is removed, and the result says whether it was there. |
| `SubscriptionBroker.Broker.OnKafkaEvent` | apps/server/src/broker/broker.ts:82-116 | One resolver is started for each subscription of each connection, none twice, and for nothing else. |
| `SubscriptionBroker.SubscribeNeedsConnection` | apps/server/src/broker/broker.ts:58-73 | A subscribe request starts a snapshot if and only if its connection is registered, and is answered with an error otherwise; the broker is unchanged until the snapshot has come. |
| `SubscriptionSteps.ReissueAdds` | apps/web/src/api/ws-client.ts:185-204 | Reopening only adds pending requests, each under a new id and for an active subscription. |
| `SubscriptionSteps.DispatchSums` | apps/server/src/routes/ws.ts:122-221 | Dispatching one client message hands its request id to exactly one job or one reply; an unsubscribe to none. |
| `SubscriptionSteps.StepKeeps` | apps/server/src/routes/ws.ts:92-221 | Every step of client, server and queues keeps the invariant: requests conserved, subscriptions conserved, both sides typed and agreeing. |
| `SubscriptionLaws.TraceKeeps` | apps/web/src/api/ws-client.ts:92-332 | The invariant holds in every state of every run over any number of connections. |
| `SubscriptionLaws.OnePlace` | apps/server/src/broker/broker.ts:58-80 | In every reachable state each subscription of the server is in exactly one place: an acceptance on its way, the client's active map, or an unsubscribe on its way; an id in none of them is no subscription. |
| `SubscriptionLaws.Agreement` | apps/web/src/api/ws-client.ts:249-265 | With both queues empty the client's active subscriptions of this connection are exactly the server's, with the same query and parameters. |
| `SubscriptionLaws.NoHandlerAfterUnsubscribe` | apps/web/src/api/ws-client.ts:267-276 | After a subscription was given up, no later server message runs its handlers or makes it active again. |
| `SubscriptionLaws.NoLostHandler` | apps/web/src/api/ws-client.ts:119-137 | A subscribed handler is pending or active in every later state, through any number of disconnects, unless a server refused it or a handle ended it. |
| `SubscriptionLaws.EveryOpenAsks` | apps/web/src/api/ws-client.ts:167-205 | Every open sends a request with the original query and parameters for each handler still held. |
| `SubscriptionLaws.OpenAddsActive` | apps/web/src/api/ws-client.ts:185-204 | Each open leaves the active entries and adds as many pending ones: entries double on each reconnect. |
| `SubscriptionLaws.OldHandleDoesNotEnd` | apps/web/src/api/ws-client.ts:185-204 | Using a handle from before a reconnect right after the open leaves its handlers with the client under the new request. |
| `SubscriptionHandles.HandleEndsIff` | apps/web/src/api/ws-client.ts:305-319 | A step: using a handle ends its handlers at the client if and only if no other pending or active entry carries them. The result over runs is HandleEndsUnlessReopened. |
| `SubscriptionHandles.OneEntryUnlessReopened` | apps/web/src/api/ws-client.ts:119-205 | Over every run a handler has one entry at the client as long as no open found it active. |
| `SubscriptionHandles.HandleEndsUnlessReopened` | apps/web/src/api/ws-client.ts:305-319 | Over every run a handle used before any open found its subscription active ends its handlers. |
| `SubscriptionLaws.AnsweredOnce` | apps/server/src/routes/ws.ts:92-112 | A call on the current socket is in exactly one place - on its way, at the gateway, or answered - on every outcome; a settled call in none. |
| `SubscriptionLaws.SettledOnce` | apps/web/src/api/ws-client.ts:278-299 | A promise is settled at most once: its outcome never changes and it is never waited for again. |
| `SubscriptionLaws.OwnAnswer` | apps/web/src/api/ws-client.ts:278-299 | A promise is only ever settled by the gateway's answer to its own call, by an error about its own call, or by the end of a connection. |
| `SubscriptionLaws.CloseSettlesAll` | apps/web/src/api/ws-client.ts:327-332 | A close settles every waiting call with "disconnected" and leaves none waiting. |
| `SubscriptionLaws.OfflineCallWaits` | apps/web/src/api/ws-client.ts:151-160 | Over every run: a call made while not open is never sent and in no queue; it waits through any steps without a close, and the first close after it settles it with disconnected for good. |
| `SubscriptionLaws.OfflineStep` | apps/web/src/api/ws-client.ts:151-160 | A step: an unsent waiting call stays waiting and unsent through a step if and only if that is not a close. |
| `SubscriptionService.RequestIsServed` | apps/server/src/routes/ws.ts:133-200 | In every run: a taken subscribe request starts the snapshot of its query and nothing else; an unsubscribe ends that subscription and no other; a call starts at the gateway if and only if it names a charger and one of the thirteen commands, and is answered with the reason otherwise. |
| `SubscriptionService.WorkIsAnswered` | apps/server/src/routes/ws.ts:133-160 | In every run: a finished snapshot is accepted under a new id that holds its query, and follows; a failed one is refused; each answer or failure of the gateway goes back to its own call; an event starts work that sends its deltas; opening and closing touch their own connection only. |
| `SubscriptionService.ReplyIsTaken` | apps/web/src/api/ws-client.ts:249-303 | In every run: an acceptance moves its request's query and handlers under the new id, a result or an error settles its own call, and a refusal rejects the handlers of its own request; the client waits for each of them. |
| `SubscriptionService.RequestIsAsked` | apps/web/src/api/ws-client.ts:119-160 | In every run: each request is remembered under a number of its own and sent at once when the socket is open. |
| `SubscriptionService.EndedBecause` | apps/server/src/routes/ws.ts:157-214 | Every settled promise goes back to an earlier step: the gateway's answer to that call with that body, its failure with that message, a call that could not be forwarded with that reason, or a close while it waited. |
| `SubscriptionService.RefusedBecause` | apps/server/src/routes/ws.ts:133-140 | A handler is rejected only if the snapshot of a request that carried it has failed at an earlier step. |
| `SubscriptionService.HeldOrFailed` | apps/web/src/api/ws-client.ts:305-319 | A subscribed handler is held in every later state unless the snapshot of a request that carried it has failed or its handle was used. |
| `SubscriptionService.SubscriptionLives` | apps/web/src/api/ws-client.ts:119-300 | From every start there is a run in which a subscription is asked for, served and accepted with its query and parameters on both sides, and its snapshot runs its handler. |
| `SubscriptionOrder.StepOrdered` | apps/server/src/routes/ws.ts:133-154 | Every step keeps the order: no snapshot, delta or unfinished delta of a subscription is ahead of its acceptance. |
| `SubscriptionOrder.UpdatesReachHandlers` | apps/web/src/api/ws-client.ts:267-276 | In every run each snapshot and each delta that reaches the client runs the handlers of its subscription, unless it was given up before. |
| `Transcript.CoversExactly` | apps/web/src/hooks/use-command-transcript.ts:152-154 | Spreading only the later of two patches is the same on every entry if and only if it sets every field the earlier one sets. |
| `Transcript.TranscriptStore.BeginCommand` | apps/web/src/hooks/use-command-transcript.ts:120-135 | A new pending entry goes in front, the ring is cut at 200, its command is in flight, and the snapshot shows it. |
| `Transcript.TranscriptStore.CompleteCommand` | apps/web/src/hooks/use-command-transcript.ts:137-150 | A completion is applied, or buffered while paused; the command leaves flight unless another visible entry of it is pending. |
| `Transcript.TranscriptStore.DropMethodIfDone` | apps/web/src/hooks/use-command-transcript.ts:156-161 | The scan for another pending entry of the command decides whether it stays in flight. |
| `Transcript.TranscriptStore.ClearAll` | apps/web/src/hooks/use-command-transcript.ts:163-167 | Clearing empties entries and buffer and nothing else. |
| `Transcript.TranscriptStore.PauseView` | apps/web/src/hooks/use-command-transcript.ts:169-173 | Pausing twice is pausing once. |
| `Transcript.TranscriptStore.ResumeView` | apps/web/src/hooks/use-command-transcript.ts:175-185 | Resuming applies the buffered completions in order and empties the buffer. |
| `Transcript.RunSimulated` | apps/web/src/hooks/use-command-transcript.ts:120-185 | At every moment of a run the never-paused run is where flushing the buffer would lead. |
| `Transcript.PausingIsInvisible` | apps/web/src/hooks/use-command-transcript.ts:120-185 | After a resume the entries are those of the same run without pause and resume, through eviction and clears, provided a repeated completion within one pause covers the first. |
| `Transcript.PausingIsInvisibleOnce` | apps/web/src/hooks/use-command-transcript.ts:213-256 | The same for every run in which each issued id is completed at most once. |
| `Transcript.TwiceWhilePaused` | apps/web/src/hooks/use-command-transcript.ts:137-145 | Two completions of one id within a pause are harmless for every store if and only if the second patch covers the first. |
| `Transcript.ThrowingCallbackLosesResponse` | apps/web/src/hooks/use-command-transcript.ts:225-246 | A callback that throws after a good answer completes the id twice; with a pause the response is lost, without one it is kept. |
| `Transcript.RingHoldsTheLatest` | apps/web/src/hooks/use-command-transcript.ts:120-135 | From any store, however it is paused, the ring keeps the last 200 entries since the last clear under consecutive ids. |
| `Transcript.RingShowsTheLatest` | apps/web/src/hooks/use-command-transcript.ts:120-135 | After every run entry i is the command begun i places before the last, with its time, command and request. |
| `TranscriptTales.EntriesAreTold` | apps/web/src/hooks/use-command-transcript.ts:120-185 | After every run and a resume each field of each visible entry is what the last of its completions to set that field said, and pending, awaiting or empty if none did. |
| `TranscriptTales.BufferedCount` | apps/web/src/hooks/use-command-transcript.ts:110-150 | The count of buffered completions is the number of commands completed since the pause began or was cleared, each once. |
| `Transcript.PendingStaysInFlight` | apps/web/src/hooks/use-command-transcript.ts:156-161 | In every run a pending entry whose completion is not buffered has its command in flight. |
| `Transcript.NothingSticksIff` | apps/web/src/hooks/use-command-transcript.ts:137-185 | After a resume every command in flight has a pending entry, if and only if before it every command in flight had a pending entry whose completion was not buffered. |
| `Transcript.InFlightExactIff` | apps/web/src/hooks/use-command-transcript.ts:137-185 | After every run that ends in a pause, the commands in flight after the resume are exactly those with a pending entry, under the same condition. |
| `Transcript.LastCompletionSticksIff` | apps/web/src/hooks/use-command-transcript.ts:156-161 | A step: while paused, the last completion of a command leaves it in flight if and only if another visible entry of it is pending with its completion already buffered. The result over runs is InFlightExactIff. |
| `Transcript.NeverPausedNeverSticks` | apps/web/src/hooks/use-command-transcript.ts:120-161 | In every run without a pause a command in flight has a completion still to come. |
| `Transcript.InFlightCanStick` | apps/web/src/hooks/use-command-transcript.ts:137-161 | A run of two commands of one kind, both completed during a pause, that stays in flight with nothing pending. |
| `Diagnostics.DiagnosticsStore.SweepExpired` | apps/server/src/store/diagnostics-store.ts:125-133 | Exactly the pending rows past their expiry become expired, and the result is how many. |
| `Diagnostics.DiagnosticsStore.Issue` | apps/server/src/store/diagnostics-store.ts:140-170 | issue sweeps, then adds a pending row with the next id and the given or the next synthetic request id; a token already in the table is refused. |
| `Diagnostics.DiagnosticsStore.FindPending` | apps/server/src/store/diagnostics-store.ts:178-188 | findPending sweeps and answers by the four checks in their order. |
| `Diagnostics.DiagnosticsStore.Consume` | apps/server/src/store/diagnostics-store.ts:195-228 | consume sweeps, checks again, and marks exactly the token's row as uploaded. |
| `Diagnostics.DiagnosticsStore.Delete` | apps/server/src/store/diagnostics-store.ts:261-274 | delete removes the row and, if it can, its file; an unknown id changes nothing. |
| `Diagnostics.DiagnosticsStore.HandleUpload` | apps/server/src/routes/diagnostics.ts:184-246 | The upload handler: token check, lookup, write that may fail, consume, and removal of the file after a refusal. |
| `Diagnostics.RunLives` | apps/server/src/store/diagnostics-store.ts:125-228 | With a clock that never goes back, in every reachable table and at the time of its last operation, a row is uploaded exactly when it is received, between its issue and its expiry, and an expired row is past its expiry. |
| `Diagnostics.ExpiredIff` | apps/server/src/store/diagnostics-store.ts:118-133 | After every timely run, with t the time of the last sweep: a row is expired if and only if it was never received and its expiry is before t; so no pending row is past t. |
| `Diagnostics.StatusMovesOneWay` | apps/server/src/store/diagnostics-store.ts:125-228 | On every operation the row of an id or token is what it was or one move further, from pending to uploaded or expired; a row under a new id is pending and its token was not in the table. |
| `Diagnostics.EveryRunMovesOneWay` | apps/server/src/store/diagnostics-store.ts:125-228 | Over every run with fresh tokens, between any two moments, the row of a token is what it was or one such move further. |
| `Diagnostics.NeverWrongStatus` | apps/server/src/store/diagnostics-store.ts:178-212 | After every run with a clock that does not go back, neither a lookup nor an upload is answered with wrong_status. |
| `Diagnostics.UploadAcceptedIff` | apps/server/src/routes/diagnostics.ts:184-246 | After every such run an upload is accepted if and only if the token is well formed, known, unused and still valid once the bytes are written. |
| `Diagnostics.UploadOutcomes` | apps/server/src/routes/diagnostics.ts:184-246 | After every timely run, for every upload: the answer and the files. A token that is not 64 hexadecimal digits is bad, one of no row unknown; else it is consumed, expired before the write, the write failed, expired during the write and the file removed if that works, or accepted with the row filled in. |
| `Diagnostics.IssueAdds` | apps/server/src/store/diagnostics-store.ts:140-170 | An issue under a new token adds one pending row behind the others, under the request id asked for or one more than the charger's largest, valid until its time to live is over. |
| `Diagnostics.IssuedUntilExpiry` | apps/server/src/store/diagnostics-store.ts:140-170 | After every such run a token just issued is accepted by an upload if and only if the bytes are down before its time to live is over. |
| `Diagnostics.DeletedIsGone` | apps/server/src/store/diagnostics-store.ts:261-274 | A delete takes exactly the row of that id and exactly its file. |
| `Diagnostics.TokenIsUsedOnce` | apps/server/src/store/diagnostics-store.ts:195-228 | Over every run with fresh tokens each token is accepted at most once, also across deletes. |
| `Diagnostics.IssueKeepsPathsIff` | apps/server/src/store/diagnostics-store.ts:281-285 | Issuing keeps all paths apart if and only if the new row's path is not that of a row in the table. |
| `Diagnostics.SyntheticIdIsFree` | apps/server/src/store/diagnostics-store.ts:294-301 | A synthetic request id always gets a free path when sanitising leaves the charger ids alone, also when an id is used again after a delete. |
| `Diagnostics.DirectoryIs` | apps/server/src/store/diagnostics-store.ts:332-339 | A charger's directory is its id with every character outside letters, digits and _.-: an underscore, or one underscore for nothing, a dot or two; it has no slash, so it lies under the root. |
| `Diagnostics.RunAgrees` | apps/server/src/routes/diagnostics.ts:184-246 | Over every run whose issues get free paths, explicit ids included, no two rows share a path and every uploaded row's file has its recorded size and digest. |
| `Diagnostics.UploadsAgreeWithFiles` | apps/server/src/routes/diagnostics.ts:184-246 | Over every run with synthetic ids the same holds outright, through failed writes, refused uploads, deletes and reused ids. |
| `Diagnostics.SharedPathCorrupts` | apps/server/src/store/diagnostics-store.ts:144 | Two pending rows with one path: uploading to both leaves the first row telling a digest its file does not have. |
| `Diagnostics.SharedPathFromEmpty` | apps/server/src/store/diagnostics-store.ts:140-170 | From an empty table: issuing twice with one explicit request id for chargers that sanitise to one name, then uploading to both, ends in a row whose digest is not its file's. |
| `ChannelDocs.ParseManaged` | apps/server/src/store/channels-store.ts:327-340 | Reading the document skips the placeholder and nameless receivers and keeps the others in order. |
| `ChannelDocs.RenderManaged` | apps/server/src/store/channels-store.ts:447-483 | Writing puts the placeholder first, then one receiver and one sub-route per channel. |
| `ChannelDocs.ChannelsStore.Read` | apps/server/src/store/channels-store.ts:142-151 | A missing file is an empty configuration. |
| `ChannelDocs.ChannelsStore.UpdateChannels` | apps/server/src/store/channels-store.ts:179-183 | Saving replaces the file by the rendering of the new configuration. |
| `ChannelDocs.ChannelsStore.SeedIfMissing` | apps/server/src/store/channels-store.ts:189-198 | Seeding writes an empty configuration only where there is no file. |
| `ChannelDocs.ReadsNormal` | apps/server/src/store/channels-store.ts:351-435 | Each channel reads back from its receiver in its normal form: default templates and empty overrides gone, bearer over basic, parse mode filled in, chat id as its number prints; templates on or off. |
| `ChannelDocs.ParseAfterRender` | apps/server/src/store/channels-store.ts:327-340 | Parsing what was rendered gives every channel in order in normal form and the default unchanged; none is dropped. |
| `ChannelDocs.DocumentTells` | apps/server/src/store/channels-store.ts:447-600 | The document names the templates file exactly when there is one, and has the placeholder and then one receiver per channel that tells each of its fields; with templates on a text the channel lacks is the invocation of its managed template. |
| `ChannelDocs.ReceiverIsRead` | apps/server/src/store/channels-store.ts:351-428 | Any receiver is read as the first kind it has a configuration of - slack, e-mail, webhook, telegram - or not at all, and the channel tells what that says: a text that is empty or the managed invocation counts as none, and a bearer token needs the word bearer in either case. |
| `ChannelDocs.DocumentIsRead` | apps/server/src/store/channels-store.ts:327-342 | Each receiver of any document adds its channel in order, except the placeholder and those without a name. |
| `ChannelDocs.DefaultIsRead` | apps/server/src/store/channels-store.ts:337-341 | The default is the root receiver unless that is the placeholder. |
| `ChannelDocs.NormalTwiceIff` | apps/server/src/store/channels-store.ts:575-600 | The normal form is idempotent for a channel if and only if it is not a telegram channel with an empty parse mode or a chat id that prints in scientific notation. |
| `ChannelDocs.ChatKeptIff` | apps/server/src/store/channels-store.ts:581-589 | After any number of saves a telegram channel has the chat id it began with if and only if the id is in the range of the exact integers or a double prints as the id's own digits. |
| `ChannelDocs.ExactChat` | apps/server/src/store/channels-store.ts:581-589 | In the exact-integer range a chat id keeps its value. |
| `ChannelDocs.WideChatCollapses` | apps/server/src/store/channels-store.ts:581-589 | A chat id that prints in scientific notation is read as a one-digit id on the next save. |
| `ChannelDocs.NextSaveKeepsReceiverIff` | apps/server/src/store/channels-store.ts:485-602 | The receiver Alertmanager sees survives the next save if and only if no override is an explicit empty text (nor, without templates, a managed invocation), and a telegram channel has no empty parse mode and a chat id that prints plainly; an empty override is replaced by the default. |
| `ChannelSecrets.MaskHidesSecrets` | apps/server/src/store/channels-store.ts:210-255 | Masking leaves every other field and makes every secret one that a save recognises as unchanged. |
| `ChannelSecrets.MaskShows` | apps/server/src/store/channels-store.ts:205-256 | What the browser sees: four dots and the last four characters, of a long URL its first 24 too, of a bot token also the bot's number. |
| `ChannelSecrets.MaskShowsPresence` | apps/server/src/store/channels-store.ts:205-256 | The mask shows whether there is a secret: an optional one is masked if and only if it is there and not empty. |
| `ChannelSecrets.MaskShowsOnlyEnds` | apps/server/src/store/channels-store.ts:210-255 | A mask tells nothing of a secret but its ends: two secrets with the same last four characters (and, for a long URL, the same first 24, for a bot token the same bot id) have the same mask. |
| `ChannelSecrets.EditKeepsSecrets` | apps/server/src/routes/sys-alerts.ts:1168-1218 | Saving a channel whose secrets are masked or empty takes over every other field and keeps every secret, for all four types. |
| `ChannelSecrets.MergeOwnMaskIff` | apps/server/src/routes/sys-alerts.ts:1168-1218 | Merging a channel with its own mask is the identity if and only if no optional secret is the empty text. |
| `ChannelSecrets.MaskedEditIsTheEdit` | apps/server/src/routes/sys-alerts.ts:1168-1218 | An edit of the masked channel, saved, is the same edit of the stored one. |
| `ChannelSecrets.NormalHasNoEmptySecret` | apps/server/src/store/channels-store.ts:351-435 | What is read back from the file never has an empty optional secret, so that condition holds for every stored channel. |
| `ChannelSecrets.MergeKeepsSecretsIff` | apps/server/src/routes/sys-alerts.ts:1168-1218 | A save merges every stored optional secret in, kept or replaced, if and only if it keeps the type of the channel. |
| `ChannelSecrets.SavedSecretsIff` | apps/server/src/routes/sys-alerts.ts:1168-1218 | Through the file every optional secret survives a save if and only if the type is kept and a basic-authentication password is not dropped with its user name or for a new bearer token. |
| `ChannelRoutes.ReplaceKeepsSecretsIff` | apps/server/src/routes/sys-alerts.ts:743-790 | The same for the route: what is read back after an accepted save. |
| `ChannelSecrets.BearerSticks` | apps/server/src/routes/sys-alerts.ts:1200-1204 | A webhook with a bearer token cannot be switched to basic authentication: the token stays and the new credentials are dropped. |
| `ChannelSecrets.UnchangedTokenRejected` | apps/server/src/routes/sys-alerts.ts:659-663 | No masked or empty bot token passes the body check. |
| `ChannelSecrets.BotTokenIff` | apps/server/src/routes/sys-alerts.ts:657-663 | A bot token passes if and only if it is digits, a colon and at least twenty letters, digits, underscores or dashes, 256 characters at most. |
| `ChannelRoutes.Routes.PostChannel` | apps/server/src/routes/sys-alerts.ts:700-740 | Adding: 400, 409 or the channel appended, becoming the default if there was none. |
| `ChannelRoutes.Routes.PutChannel` | apps/server/src/routes/sys-alerts.ts:743-790 | Replacing: 400, 404 or the merged channel in its old place. |
| `ChannelRoutes.Routes.DeleteChannel` | apps/server/src/routes/sys-alerts.ts:793-822 | Removing: 400, 404 or the channel gone, the default falling to the first one left. |
| `ChannelRoutes.Routes.PutDefault` | apps/server/src/routes/sys-alerts.ts:898-923 | Setting the default: 404 or done; null clears it. |
| `ChannelOutcomes.AddDoes` | apps/server/src/routes/sys-alerts.ts:700-735 | An added channel is read back behind the ones before, and is the default if there was none; alerts with its name go to it, alerts that went nowhere go to it too, all others go where they went. It is refused if and only if the body is bad or the name taken, and then nothing changes. |
| `ChannelOutcomes.ReplaceReplies` | apps/server/src/routes/sys-alerts.ts:743-790 | A replace is refused if and only if name or body are bad or disagree, or the name is unknown, and then nothing changes. |
| `ChannelOutcomes.ReplaceIsRead` | apps/server/src/routes/sys-alerts.ts:762-780 | After a replace the channel of that name is read back as the merge of what was stored and what was sent, in its place; the others and the default stay. |
| `ChannelOutcomes.ReplaceRoutes` | apps/server/src/routes/sys-alerts.ts:762-780 | After a replace every alert goes where it went. |
| `ChannelOutcomes.MergeLaw` | apps/server/src/routes/sys-alerts.ts:1168-1218 | The merge takes another type as sent; of the same type it takes the public fields, and of each secret what was sent unless that is empty or masked. |
| `ChannelOutcomes.RemoveReplies` | apps/server/src/routes/sys-alerts.ts:793-820 | A remove is refused if and only if the name is bad or unknown, and then nothing changes. |
| `ChannelOutcomes.RemoveIsRead` | apps/server/src/routes/sys-alerts.ts:793-820 | After a remove the others are read back in order; a default that was another stays, else the first of the others is the default, or none. |
| `ChannelOutcomes.RemoveRoutes` | apps/server/src/routes/sys-alerts.ts:793-820 | After a remove no alert goes to that channel, and one that did not go to it goes where it went. |
| `ChannelOutcomes.DefaultDoes` | apps/server/src/routes/sys-alerts.ts:898-928 | After choosing a default every alert that names no channel goes to it, or nowhere when it is cleared; the channels stay. It is refused if and only if the name is unknown. |
| `ChannelOutcomes.AlertGoes` | apps/server/src/store/channels-store.ts:447-475 | An alert goes to the channel its receiver label names if that is one, else to the default, else nowhere. |
| `ChannelOutcomes.NameOkIff` | apps/server/src/routes/sys-alerts.ts:1157-1160 | A channel name passes if and only if it has 1 to 63 letters, digits, underscores and dashes and begins with a letter or digit. |
| `ChannelOutcomes.BodyOkIff` | apps/server/src/routes/sys-alerts.ts:601-680 | A body passes if and only if its name, the schema and the checked fields of its type pass. |
| `ChannelOutcomes.StoredIffLastAdded` | apps/server/src/routes/sys-alerts.ts:700-820 | Over every sequence of requests a name is stored if and only if its last accepted add or remove was an add. |
| `ChannelRoutes.SavedReadsBack` | apps/server/src/store/channels-store.ts:142-183 | What was saved is what is read, in normal form, with the same names. |
| `ChannelRoutes.DoSound` | apps/server/src/routes/sys-alerts.ts:700-923 | Each request leaves the file alone or saves a configuration with unique names and a live default. |
| `ChannelRoutes.RunSound` | apps/server/src/routes/sys-alerts.ts:700-923 | Over every sequence of requests names stay unique and the default stays a live channel or none. |
| `ChannelRoutes.AlwaysSomeDefault` | apps/server/src/routes/sys-alerts.ts:700-822 | Through every sequence of adds, replaces, removes and changes of default that never clears it, there is a default whenever there is a channel. |
| `ChannelRoutes.AlertsArrive` | apps/server/src/store/channels-store.ts:447-483 | After every sequence of requests an alert labelled with a channel's name reaches exactly that channel, any other the default or the placeholder, and every target is a defined receiver. |
| `ChannelRoutes.AcceptedIsStable` | apps/server/src/routes/sys-alerts.ts:600-678 | A channel the body check accepts reaches its normal form with the first save, unless its chat id prints in scientific notation. |
| `ChannelRoutes.MaskedTelegramIsRefused` | apps/server/src/routes/sys-alerts.ts:743-760 | A telegram body with a masked or empty token is answered with 400 whatever else it changes. |
| `ChannelUrls.ShortMaskIsRefused` | apps/server/src/store/channels-store.ts:249-254 | The mask of a URL of at most 32 characters begins with the dots and fails the URL check. |
| `ChannelUrls.PathMaskIsAccepted` | apps/server/src/store/channels-store.ts:249-254 | The mask of a longer URL passes when its first 24 characters hold the whole authority. |
| `ChannelUrls.PortMaskIsRefused` | apps/server/src/store/channels-store.ts:249-254 | It fails when the cut falls into the port and the tail has no at sign. |
| `ChannelRoutes.RunSecretsOk` | apps/server/src/routes/sys-alerts.ts:700-822 | After every sequence of requests every stored URL and token is one the body check accepts. |
| `ChannelRoutes.SavingUnchangedIff` | apps/server/src/routes/sys-alerts.ts:743-790 | After every sequence of requests, for every stored channel and every body of its type whose secrets are all empty or masked and whose other fields are accepted: the save works if and only if the body is e-mail, or slack or webhook with a URL text that is not empty and is a URL; never for telegram. Then the edit is stored, the secrets and the other channels stay; else the answer is 400 and the file stays. |
| `ChannelRoutes.SavingBlankIff` | apps/server/src/routes/sys-alerts.ts:770-774 | With every secret sent empty, the documented way to keep it, the save works if and only if the channel is e-mail. |
| `ChannelRoutes.EmptyUrlIsRefused` | apps/server/src/routes/sys-alerts.ts:601-648 | A slack or webhook body with an empty URL is answered with 400, added or replaced, and the file stays. |
| `ChannelRoutes.SavingTheMaskIff` | apps/server/src/routes/sys-alerts.ts:743-790 | Corollary for the channel's own mask: the save works if and only if the channel is e-mail, or slack or webhook with a URL over 32 characters whose mask is still a URL. |
| `ChannelRoutes.PathMaskPasses` | apps/server/src/routes/sys-alerts.ts:743-790 | That is so for every stored slack or webhook URL over 32 characters with its authority in the first 24. |
| `ChannelRoutes.ExampleIsRefused` | apps/web/src/components/ChannelsPanel.tsx:713 | For the form's own 31-character example, and for a 36-character URL cut at its port, every save of the mask is answered with 400. |
| `ChannelRoutes.ReplaceStoresTheEdit` | apps/server/src/routes/sys-alerts.ts:762-780 | A save with untouched secrets that the body check accepts stores the edit, keeps the secrets and leaves the other channels alone. |
| `RuleGroups.ParseRulesDoc` | apps/server/src/store/rules-store.ts:172-187 | The last managed group gives the rules; every other named group is preserved in order. |
| `RuleGroups.RenderRulesDoc` | apps/server/src/store/rules-store.ts:204-228 | The managed group comes first, then every preserved group. |
| `RuleGroups.RulesStore.UpdateManaged` | apps/server/src/store/rules-store.ts:99-104 | An update keeps what was read and replaces the managed rules. |
| `RuleGroups.RuleReadsBack` | apps/server/src/store/rules-store.ts:189-202 | A rule with a name reads back as it was written; one without is dropped. |
| `RuleGroups.WrittenRuleTells` | apps/server/src/store/rules-store.ts:230-246 | A written rule has its name and expression, its duration unless empty, its severity as the one label, and exactly its non-empty texts as annotations. |
| `RuleGroups.ReadRuleTells` | apps/server/src/store/rules-store.ts:189-202 | A rule of any file is read if and only if it has a name and an expression, with empty texts for what is missing and info for a severity that is none of the three. |
| `RuleGroups.LastManagedCounts` | apps/server/src/store/rules-store.ts:172-187 | The rules read are those of the last managed group of the file. |
| `RuleGroups.PreservedGroup` | apps/server/src/store/rules-store.ts:172-187 | A group is preserved if and only if it has a name other than the managed one, and the preserved ones keep their order. |
| `RuleGroups.SeriesOfUpdates` | apps/server/src/store/rules-store.ts:99-104 | After any series of updates of any file all other groups are there unchanged and in order, and the rules read are the last ones written. |
| `RuleGroups.RulesWrittenAreRead` | apps/server/src/store/rules-store.ts:189-202 | The rules read are exactly those written if and only if each has a name. |
| `ProofOfWork.HasLeadingZeroBits` | apps/server/src/auth/pow.ts:109-122 | The loop answers true if and only if the digest as a big-endian number is below 2^(8L-n), for every length and every n. |
| `ProofOfWork.MaskTests` | apps/server/src/auth/pow.ts:118-119 | The masked byte is zero if and only if the byte is below 2^(8-remaining). |
| `ProofOfWork.PowVerifier.Issue` | apps/server/src/auth/pow.ts:36-48 | A challenge is the encoded payload, a dot and its signature, with its difficulty and expiry. |
| `ProofOfWork.PowVerifier.Verify` | apps/server/src/auth/pow.ts:52-85 | verify answers by its checks in their order. |
| `ProofOfWork.VerifiedIff` | apps/server/src/auth/pow.ts:52-85 | verify accepts if and only if the challenge is a body under this server's signature, not expired, and the solution does the work. |
| `ProofOfWork.VerdictOf` | apps/server/src/auth/pow.ts:52-85 | For a body, a dot and a signature, the exact condition of each refusal: malformed, bad signature, thrown, expired, insufficient work. |
| `ProofOfWork.NoDotIsMalformed` | apps/server/src/auth/pow.ts:55-57 | A challenge without a dot is malformed. |
| `ProofOfWork.SolvePow` | apps/web/src/api/auth-client.ts:68-90 | The solver returns the first counter whose digest has enough leading zero bits. |
| `ProofOfWork.CandidatesDiffer` | apps/web/src/api/auth-client.ts:68-90 | Different counters give different candidates, so none is tried twice. |
| `ProofOfWork.SolvedIsAccepted` | apps/server/src/auth/pow.ts:52-85 | A solution found for an issued challenge is accepted if and only if it comes before the expiry. |
| `ProofOfWork.ThrowsIff` | apps/server/src/auth/pow.ts:61-67 | verify throws instead of answering if and only if the signature has the right length and is not ASCII. |
| `Connectors.MergeConnector` | apps/server/src/broker/queries.ts:219-248 | One status event: dropped when incomplete or not newer, else it replaces its connector's entry and the row is sorted again. |
| `Connectors.MergeShows` | apps/server/src/broker/queries.ts:219-248 | A status event shows its status, error code and time in its connector's entry and in no other if and only if it names a connector and a status and the entry is not as new; else the row stays. |
| `Connectors.MergeIsMap` | apps/server/src/broker/queries.ts:219-248 | On a sorted row without duplicates a merge is one update of the map the row stands for and keeps it sorted. |
| `Connectors.CommuteIff` | apps/server/src/broker/queries.ts:235-238 | Two events can be exchanged on every sorted row if and only if they differ in connector or time, or say the same. |
| `Connectors.OrderDoesNotMatter` | apps/server/src/broker/queries.ts:219-248 | A set of such events gives the same row in every order. |
| `Connectors.RowKeepsTheLatest` | apps/server/src/broker/queries.ts:219-248 | The row then holds for each connector an entry at least as late as each of its events, which shows the fields of one of them or is the one it had; connectors without events are untouched. |
| `Connectors.TieKeepsFirst` | apps/server/src/broker/queries.ts:235-238 | Of two events of one connector and one time the first one applied stays. |

## Left out

- Plumbing: HTTP and Fastify, authentication headers, the gateway client, Kafka consumption, metrics, promtool and Alertmanager reload calls.
- The user interface, and the configuration and static tables behind it.
- The text of YAML and JSON, SQLite's storage, SHA-256, HMAC and random bytes: documents are datatypes, the rest are functions with the stated laws.
- Multi-byte characters: a file is a sequence of single-byte characters, since the readers decode each chunk on its own.
- Writes that store only part of a line, and appends that fail after some bytes.
- Two first opens of one charger and month at the same time, which in the code give two handles; opening is one step here, while writes and flushes interleave.
- Closing file descriptors after the last flush of `close`.
- The two readers' copies of the chunk loop: the loop is modelled once and used for both.
- URL-encoding of charger ids as directory names: a charger has its own directory.
- Several sockets at a time on the client, and a status callback that subscribes while the client changes its status.
- A snapshot that completes after its connection has closed: its messages have no socket to go to.
- Heartbeats, back-off and close codes: a connection may close at any moment instead.
- Messages that fail the envelope's validation, pings and pongs.
- Subscription ids are counted in the order snapshots complete; the code draws a random id when the request arrives.
- Which deltas a resolver makes of an event: a job ends in any number of them.
- Clock and random values are parameters; row ids beyond the range of SQLite's rowid.
- File access outside the console: nobody else writes the managed files.
- Grouping intervals and the resolved flag of the Alertmanager document, which are constants.
- Concurrent requests to the channel and rule routes, which read and write the file without a lock: each request is one step.
- The route of the default receiver and a channel named "default" share a path; requests are modelled after routing.
- Template syntax, length and e-mail checks of the channel body: one abstract predicate beside the checks that are spelled out. The URL parser is an abstract test with the laws in `ChannelUrls.Parses`.
- LogRoundTrip.WhatIsAppendedReadsBack: asks that a charger's writes land in the order of its appends, because `SwappedLandings` shows what happens otherwise.
- ChannelRoutes.SavingTheMaskIff: for a long URL whose mask cuts its host name, the answer is left to the URL parser's verdict on the mask, because its host rules are not modelled.
- Texts of doubles beyond the exact integers are an abstract function with the law `Prints`; chat ids beyond the range of doubles and chat ids with leading white space.
- Dates outside the years 0000 to 9999, whose text has another width; so `EventSearch.SearchEvents` takes the two dates in that form, and `Retention.PruneEventLog` a retention that does not reach back before year 0.
- Fractional connector ids and difficulties.
- ProofOfWork.SolvePow: a solution is assumed to exist, because the loop of the code has no bound; aborting the search is not modelled.
- TextOrder: characters are compared one by one, which is the program's order for characters below U+10000.
- EventSearch.WalkIsComplete: asks for strictly falling times among the hits, because `PaginationNeedsDistinctTimes` shows that nothing less is enough.
- Transcript.PausingIsInvisible: asks that a repeated completion within one pause covers the first, because `TwiceWhilePaused` shows that nothing less is enough.
- EventSearch.SearchFindsWord: lower-casing is taken letter by letter; for any other, `SearchFindsIff` states the search on the joined text.
- Retention.PruneKeepsSearches: asks for a cutoff year of 100 or later, because `KeepsMonthsFromCutoff` shows that nothing less is enough.
