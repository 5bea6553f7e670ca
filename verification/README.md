# A model of the Nostr relay

This project models a Nostr relay (NIP-01, with the replaceable and addressable kinds of the former NIP-16 and
NIP-33) and proves what it promises. The relay accepts signed events over WebSocket connections, queues them in a
Redis stream, stores them in a PostgreSQL table from background workers, answers subscriptions with stored events
and then with live ones.

## How it is laid out

| file | what it holds |
|---|---|
| `Base.dfy`, `Utf8.dfy` | option, result and integer types, lengths in bytes, printing numerals and reading them back; UTF-8 after RFC 3629 |
| `JsonText.dfy`, `Canonical.dfy` | a reader of JSON texts after RFC 8259; the printer of the canonical form, and that it prints the least text |
| `Events.dfy` | events, what is hashed of them, categories, validation |
| `ClientIds.dfy` | client ids and their uniqueness |
| `Filters.dfy`, `Subscriptions.dfy` | the live matcher; the nested subscription map and the flat map it stands for |
| `Table.dfy`, `Histories.dfy` | what one store does to the table; what whole histories of stores leave |
| `Sql.dfy`, `Postgres.dfy` | the history query; the `PgStore` object, with calls that may fail |
| `Streams.dfy` | the stream with its consumer group; the `RedisStore` object |
| `Pipeline.dfy`, `PipelineRuns.dfy` | a machine of interleaved workers over table and stream; theorems over its runs |
| `Hands.dfy`, `Acknowledgements.dfy` | which worker has which entry and what strands one; why an entry is acked, and what became of its event |
| `Addresses.dfy`, `AddressRuns.dfy` | the machine address by address: what its steps keep, and exactly when its runs do |
| `Worker.dfy` | the worker's code over the two store objects, as runs of that machine |
| `Protocol.dfy`, `Relay.dfy` | frames and replies; the whole relay as one machine of interleaved connections and workers |
| `RelayInv.dfy`, `RelaySteps.dfy`, `RelayTheorems.dfy`, `RelayOnce.dfy`, `RelayReplies.dfy`, `RelayRefusals.dfy` | its invariants, that every step keeps them, and what they promise of every run |
| `AppSteps.dfy`, `AppSpec.dfy`, `AppState.dfy` | the shared state with its handlers, as runs of the relay machine |

There are two views of the code. The classes (`IdSource`, `SubscriptionManager`, `PgStore`, `RedisStore`,
`AppState`, and the worker's methods) are the source's objects and loops, field by field and call by call, and
each remote call takes a parameter that says whether it works, fails, or takes effect with its reply lost. The
machines (`Pipeline`, `Relay`) split the same code into the steps that can interleave: one lock, one statement or
one remote call each. Two refinements tie them together: whatever the worker's code does is a run of the pipeline
machine (`Worker.RunWorker`), and whatever the handlers of a connection do is a run of the relay machine
(`App.AppState.HandleSocket` and the handlers below it). The relay machine contains the pipeline machine
(`RelayTheorems.RunProjects`). The runs start from an empty table and stream or from whatever earlier runs left
there, as the code does (`RelayTheorems.Inherited`; whatever is reached from nothing at all is among that,
`RelayTheorems.ReachedFromNothing`). Every theorem over all runs therefore speaks about the code too.

The machine's transactions follow READ COMMITTED: a DELETE has the snapshot of its statement and takes the tuples
of it that are still there when their locks are free, not rows inserted again under their ids; an INSERT waits for
another transaction that holds the same id, and does nothing if that id is then there; a rollback leaves no trace.

One assumption is made about cryptography, as a precondition (`Events.NoCollision`): two events that clients send
and that pass validation, and have the same id, have the same preimage. It speaks only of the events a run
receives (`Env.sent`, any set that has them all). Which text is hashed is proved from the grammar of RFC 8259: the
least JSON text of the array of 0 and the event's fields (`Events.PreimageMeans`), so that equal preimages mean equal
fields (`Events.PreimageInjective`).

## Where the code departs from its own comments

The model follows the code; each point has a lemma with a concrete input or an exact condition.

- src/storage/postgres.rs:70 says that a stale replaceable event is dropped. It is inserted all the same
  (`Histories.StaleArrivalStays`). A key holds exactly one row exactly when its last arrival is strictly newer than
  every event of another id (`Histories.OneRowIff`); the newest row is never lost (`Histories.NewestRetained`,
  `Postgres.NewestServed`).
- src/worker/mod.rs:11 and 103 say that a failed entry is redelivered. Only new entries are ever read: a step strands
  exactly the entries it drops (`Hands.StrandsIff`), for ever (`Hands.DroppedForEver`; `Hands.FailedEntryStranded` is
  a run that does it). A pending entry can still become acked exactly when some worker has it in hand and it parses
  (`Hands.AckableIff`).
- src/storage/postgres.rs:117 speaks of one event per d tag, but the DELETE uses JSONB containment
  (`Histories.ContainmentIsNotDTag`, and `Histories.ContainmentExactIff` for the rows on which the two agree). An
  address can lose its newest event, and every row, to another address (`Histories.AddressEmptied`). It keeps its
  newest events, whatever the order of the stores, exactly when no newer event of the author and kind has a d tag that
  a tag of one of them mentions beside "d" (`Histories.AddressRetainedIff`), and then it converges
  (`Histories.AddressConverges`). Keeping the newest does not make it one row: two events without tags have the d tag
  "" and both stay (`Histories.UntaggedAddressDoubled`). An address holds one row exactly when those of its events that
  no later and newer d tag reaches are all of one id (`Histories.AddressOneRowIff`); where its tags are clean that is
  the condition for a replaceable key (`Histories.CleanAddressOneRowIff`). With interleaved workers an address keeps
  its newest time, and its acknowledged events, in every run exactly when no newer d tag of another address reaches
  an event of it (`AddressRuns.AddressIff`).
- src/storage/postgres.rs:196-199 calls the query best-effort. It ignores `ids` and tag constraints and misses
  author prefixes, for every event that can be stored (`Sql.QueryAndMatcherDiffer`, `Sql.DifferenceExists`);
  `Sql.QuerySound` and `Sql.QueryExact` say exactly when it agrees with the live matcher.
- src/subscription/mod.rs:170 offers to replace a subscription, but src/websocket/mod.rs:198 refuses any REQ of a
  client at its limit, also one that reuses an id; so the limit holds with no exception.
- src/event/mod.rs:191 says lowercase hex; either case is accepted (`Events.HexFieldAccepts`).
- The newest rows are exactly the first copies of the newest events (`Histories.NewestRows`). So they always
  converge as ids, and as rows, signatures included, exactly when the first copies agree
  (`Histories.RowsConvergeIff`): of two copies that differ in the signature the first to arrive is kept
  (`Histories.FirstSignatureWins`).

## Model

| member | source | states |
|---|---|---|
| Utf8.Utf8Written | src/service/mod.rs:32 | every string has a UTF-8 form that a reader after RFC 3629 reads back, and the length in bytes is its length |
| Utf8.Utf8LenMeans | src/service/mod.rs:32 | and it has no other: the length is the number of bytes of any UTF-8 text that reads as the string |
| Canonical.ReadPrint | src/event/mod.rs:135-143 | a reader after RFC 8259 gives back every printed value, for all strings, escapes, whole numbers and nested arrays |
| Canonical.PrintInjective | src/event/mod.rs:135-143 | two printed texts are equal exactly when the values are |
| Canonical.PrintLeast | src/event/mod.rs:127-131 | no JSON text of the value is shorter than the printed one, whatever its white space, escapes and zeros, and one as long differs only in upper-case hexadecimal digits |
| Canonical.PrintIff | src/event/mod.rs:127-131 | and it is the only text of which that is true |
| Events.PreimageMeans | src/event/mod.rs:135-143 | what is hashed reads as the array of 0, pubkey, created_at, kind, the tags as arrays of strings, and content, in that order, and is the least such text |
| Events.PreimageInjective | src/event/mod.rs:127-150 | two preimages are equal exactly when those fields are |
| Events.HexFieldAccepts | src/event/mod.rs:192-203 | a hex field passes exactly when it has the given number of characters, all among 0-9, a-f and A-F |
| Events.AdmittedMeans | src/service/mod.rs:32-58 | the limits and `validate` together pass exactly the events of the stated form |
| Events.RefusedBecause | src/service/mod.rs:32-58 | for each reason of a refusal the exact condition on the event, with lengths in bytes of the UTF-8 forms |
| Events.IdFixesBody | src/event/mod.rs:127-150 | among admitted events an id fixes every field but the signature |
| ClientIds.IdTextMeans | src/utils/mod.rs:20 | the id is the clock word in lower-case hexadecimal, a dash and the counter in decimal, neither with a leading zero |
| ClientIds.IdTextInjective | src/utils/mod.rs:16-21 | the printed id determines both the clock word and the counter, whatever their lengths |
| ClientIds.IdsCollideIff | src/utils/mod.rs:16-21 | two ids of a run collide exactly when the counter has come round and the clock reads the same |
| ClientIds.IdSource.NewClientId | src/utils/mod.rs:16-21 | prints the counter before its increment, which wraps at 2^64 |
| ClientIds.IdSource.Issue | src/utils/mod.rs:16-21 | up to 2^64 ids in a row are pairwise distinct whatever the clock reads |
| Filters.TagValues | src/subscription/mod.rs:108-113 | collects exactly the second elements of the tags with that name |
| Filters.FilterMatches | src/subscription/mod.rs:58-125 | with its early exits and in any order of the tag map, decides the conjunction of all given constraints |
| Filters.MatchesMeans | src/subscription/mod.rs:58-125 | that conjunction on the filter and the event alone: a listed prefix of id and author, a listed kind, the interval, and for every key of hashes and one ASCII character a tag that starts with it and a listed value |
| Filters.OneTagMatches | src/subscription/mod.rs:98-122 | a filter with one tag key matches exactly when the key without its hashes is not one byte, or some tag starts with it and a listed value |
| Filters.TrimmedKey | src/subscription/mod.rs:101 | stripping a key leaves what stands after its longest run of hashes |
| Filters.WideningKeepsMatches | src/subscription/mod.rs:58-125 | enlarging value lists never loses a match, and keys that reduce to no single byte have no effect |
| Filters.SubscriptionKeepsMatches | src/subscription/mod.rs:146-148 | more filters, or wider ones, match whatever fewer did |
| Subscriptions.NestedRefinesFlat | src/subscription/mod.rs:171-197 | the nested map equals a flat map from (client, subscription) to filters after every sequence of calls |
| Subscriptions.AddingFiltersKeepsPairs | src/subscription/mod.rs:146-148 | extending a subscription's filters keeps every pair that matched |
| Subscriptions.SubscriptionManager.constructor | src/subscription/mod.rs:166-168 | starts empty |
| Subscriptions.SubscriptionManager.AddSubscription | src/subscription/mod.rs:171-183 | sets one pair of the flat map and nothing else |
| Subscriptions.SubscriptionManager.RemoveSubscription | src/subscription/mod.rs:186-191 | removes one pair of the flat map and nothing else |
| Subscriptions.SubscriptionManager.RemoveAll | src/subscription/mod.rs:194-197 | removes exactly the client's pairs |
| Subscriptions.SubscriptionManager.MatchingClients | src/subscription/mod.rs:201-212 | lists exactly the matching pairs, none twice, in any order of iteration |
| Subscriptions.SubscriptionManager.ClientSubscriptions | src/subscription/mod.rs:215-220 | lists the client's subscriptions, as many as it holds |
| Subscriptions.SubscriptionManager.TotalCount | src/subscription/mod.rs:223-226 | the sum over clients is the size of the flat map |
| Table.RowRoundTrip | src/storage/postgres.rs:275-283 | each column holds the field of its name, `kind` as a signed integer of the same 32 bits, and a row read back is the event |
| Table.DPatternMeans | src/storage/postgres.rs:126-138 | containment of `[["d", v]]` means that some tag mentions both strings, in any position |
| Table.StoreMeans | src/storage/postgres.rs:169-181 | a store keeps the rows it does not supersede and adds its own unless its id is among them |
| Table.KindDecides | src/event/mod.rs:55-63 | in NIP-01's ranges of kinds: which events never enter the table, and which displace which |
| Table.StoreTwice | src/storage/postgres.rs:72-113 | repeating a store at once changes nothing |
| Table.DeletingKeepsNewest | src/storage/postgres.rs:80-109 | deleting superseded rows loses no newest time of any author and kind |
| Histories.TableContents | src/storage/postgres.rs:72-113 | an id is in the table exactly when some store of it was superseded by no later one |
| Histories.LastOccurrenceDecides | src/storage/postgres.rs:72-113 | a replaceable event's row is there exactly when no strictly newer event of its author and kind follows its last store |
| Histories.ClassKept | src/storage/postgres.rs:72-163 | a class of rows that only its own events supersede keeps one as new as every event of it ever stored |
| Histories.NewestRows | src/storage/postgres.rs:80-109 | unless something stored supersedes a newest event, the newest rows of a class are exactly the first copies of its newest events |
| Histories.NewestRetained | src/storage/postgres.rs:80-109 | and so carry exactly the ids of the newest events ever stored in it |
| Histories.RetainedIff | src/storage/postgres.rs:72-163 | a class keeps its newest events under every order and repetition exactly when nothing stored supersedes one of them |
| Histories.Convergence | src/storage/postgres.rs:80-109 | two histories of the same events, in any order and with any repetition, leave the same newest ids |
| Histories.RowsConvergeIff | src/storage/postgres.rs:80-109 | and the same newest rows, signatures included, exactly when the first copies of the newest ids agree |
| Histories.RowsConverge | src/storage/postgres.rs:80-109 | in particular when no newest event of the class has two signatures |
| Histories.FirstSignatureWins | src/storage/postgres.rs:93-98 | after any history, of two copies of a newest event the one stored first gives the row, in either order |
| Histories.KeyConfined | src/storage/postgres.rs:80-109 | every (pubkey, kind) is superseded only from within |
| Histories.ConfinedUnbeaten | src/storage/postgres.rs:72-163 | and where that is so nothing stored supersedes a newest event |
| Histories.InsertionOrder | src/storage/postgres.rs:72-113 | the rows of a replaceable key, in order of insertion, never increase in `created_at` |
| Histories.IncreasingArrivals | src/storage/postgres.rs:72-113 | strictly increasing arrivals of one key leave exactly the last row |
| Histories.OneRowIff | src/storage/postgres.rs:72-113 | a replaceable key holds exactly one row exactly when its last arrival is strictly newer than every event of another id |
| Histories.StaleArrivalStays | src/storage/postgres.rs:93-98 | a stale arrival is stored beside the newer row |
| Histories.StoresCommute | src/storage/postgres.rs:169-181 | on any table two stores of different (pubkey, kind) commute exactly unless one removes a row under the other's id or both bring the same new id |
| Histories.LastStoresCommute | src/storage/postgres.rs:169-181 | so always at the end of a history whose ids fix their events |
| Histories.DTagMeans | src/event/mod.rs:80-87 | the first tag named "d" has the value of `d_tag`, "" when it has none |
| Histories.FirstDMeans | src/event/mod.rs:80-87 | `d_tag` is the value of the first tag named "d", and "" when it has none or there is no such tag |
| Histories.ExplicitDHit | src/storage/postgres.rs:126-138 | the DELETE always reaches a row whose first d tag spells out the value |
| Histories.ContainmentExactIff | src/storage/postgres.rs:126-138 | containment agrees with `d_tag` equality for every value but "d" on exactly the rows described |
| Histories.PlainDExact | src/storage/postgres.rs:126-138 | on rows with one plain d tag containment means that the value is the d tag, or "d" |
| Histories.ContainmentIsNotDTag | src/storage/postgres.rs:126-138 | rows that containment misses, reaches through another tag, or reaches for the value "d" |
| Histories.AddressEmptied | src/storage/postgres.rs:118-163 | events that leave an address without its newest event and without any row |
| Histories.AddressRetainedIff | src/storage/postgres.rs:118-163 | an address keeps its newest events exactly when no newer event of the author and kind has a d tag that one of them mentions beside "d" |
| Histories.ClassOneRowIff | src/storage/postgres.rs:72-163 | any class of rows holds exactly one row exactly when the surviving stores of the class are all of one id |
| Histories.AddressOneRowIff | src/storage/postgres.rs:118-163 | an address holds exactly one row exactly when its events that no later, newer event's d tag reaches, beside a "d" in one of their tags, are all of one id |
| Histories.CleanAddressOneRowIff | src/storage/postgres.rs:117 | so, where its tags are clean and no d tag is "d", exactly when its last arrival is strictly newer than every event of another id |
| Histories.UntaggedAddressDoubled | src/storage/postgres.rs:117 | the counterexample to one event per d tag: two events without tags, arriving in order of time, are both kept, although the newest is safe |
| Histories.CleanAddressSafe | src/storage/postgres.rs:118-163 | it is enough that the newest events of the address are of the plain form and nothing has the d tag "d" |
| Histories.AddressConfined | src/storage/postgres.rs:118-163 | exactly when an address is superseded only from within |
| Histories.AddressConverges | src/storage/postgres.rs:118-163 | where it keeps them, the same events in any order leave the same newest ids at the address |
| Sql.AsI64 | src/storage/postgres.rs:262 | the limit wraps to the signed 64-bit value, so a limit from 2^63 on is negative |
| Sql.BuildQuery | src/storage/postgres.rs:211-262 | for every choice of present fields the built clause, with its positional binds, selects exactly the rows asked for, and the limit is bound last |
| Sql.AnswerExists | src/storage/postgres.rs:237-245 | every question has a legal answer: sorted, cut, nothing newer left out |
| Sql.QuerySound | src/storage/postgres.rs:211-262 | a row the query may return passes the live matcher exactly when it meets the `ids` and tag constraints, so always without those |
| Sql.QueryExact | src/subscription/mod.rs:58-125 | an event that passes the matcher is one the query may return exactly when its author is given in full, so always with 64-character authors |
| Sql.QueryAndMatcherDiffer | src/storage/postgres.rs:200-234 | for every admitted event, filters with a foreign id, a tag it does not carry or an author prefix, on which the two differ |
| Sql.DifferenceExists | src/storage/postgres.rs:200-234 | such an id and such a tag constraint exist for every admitted event |
| Sql.TopRowReaches | src/storage/postgres.rs:237-245 | the one row asked for is as new as any row of its key |
| Sql.QueryReturnsNewest | src/storage/postgres.rs:200-287 | after any history of stores a query for one author and kind with limit 1 returns the newest stored |
| Postgres.UpsertMeans | src/storage/postgres.rs:80-109 | what DELETE and INSERT leave, row by row |
| Postgres.EveryAnswerArises | src/storage/postgres.rs:237-267 | every legal answer is given for some order in which the database meets the rows |
| Postgres.PgStore.constructor | src/storage/postgres.rs:34-36 | starts with an empty table |
| Postgres.PgStore.InsertEvent | src/storage/postgres.rs:43-66 | inserts unless the id is there, reports which, and leaves the table alone if the statement fails |
| Postgres.PgStore.UpsertReplaceableEvent | src/storage/postgres.rs:72-113 | all or nothing over four calls; reports whether a row was inserted |
| Postgres.PgStore.UpsertParamReplaceableEvent | src/storage/postgres.rs:118-163 | the same at an address |
| Postgres.PgStore.StoreEvent | src/storage/postgres.rs:169-181 | exactly one store when it takes effect, nothing otherwise, and success reported only then, with whether a row was inserted: exactly when the id was not there on a row that stays |
| Postgres.PgStore.EventExists | src/storage/postgres.rs:186-194 | whether some row has the id |
| Postgres.PgStore.FetchAll | src/storage/postgres.rs:264-267 | filters, sorts and cuts to a legal answer; a negative limit is an error |
| Postgres.PgStore.QueryEvents | src/storage/postgres.rs:200-287 | the events of a legal answer to the question asked, or an error when the query or the limit fails |
| Postgres.AttemptsReplay | src/storage/postgres.rs:72-113 | after any mix of successful and failed attempts the table is that of the stores that took effect |
| Postgres.NewestServed | src/storage/postgres.rs:200-287 | then a query with limit 1 returns an event as new as every one of its author and kind that was ever stored |
| Streams.BatchMeans | src/storage/redis.rs:124-134 | the caller gets exactly the delivered entries that have an `event` field |
| Streams.ReadDelivers | src/storage/redis.rs:105-136 | of the undelivered entries exactly those among the next `count` become pending and are handed out |
| Streams.OperationsConserve | src/storage/redis.rs:63-150 | every operation conserves the entries and moves them only forward, and only an acknowledgement of a pending entry acks it |
| Streams.FatesPartition | src/storage/redis.rs:83-150 | with a group each entry is in exactly one of skipped, undelivered, pending, acked |
| Streams.RedisStore.constructor | src/storage/redis.rs:39-41 | starts with an empty stream |
| Streams.RedisStore.EnqueueEvent | src/storage/redis.rs:63-78 | appends one entry, or none when the command fails |
| Streams.RedisStore.EnsureConsumerGroup | src/storage/redis.rs:83-100 | creates the group at the end of the stream once; an existing group is success |
| Streams.RedisStore.ReadStream | src/storage/redis.rs:105-136 | moves the next undelivered entries to pending, `count` of them if there are as many, nothing else, and returns in order those with an `event` field |
| Streams.RedisStore.AckStream | src/storage/redis.rs:139-150 | moves a pending entry to acked |
| Pipeline.CommitCommits | src/storage/postgres.rs:76-112 | a transaction that commits removes only superseded rows and leaves its key as new as its event |
| Pipeline.CommitKeepsSettled | src/storage/postgres.rs:76-112 | what was stored or superseded before another's commit is so after it |
| Pipeline.StepKeepsInv | src/worker/mod.rs:62-109 | every step of every worker keeps the invariant, takes back no newest time, removes only rows that some queued event supersedes and moves entries only forward |
| PipelineRuns.RunKeepsInv | src/storage/postgres.rs:76-112 | over every run the largest committed `created_at` of every (pubkey, kind) never decreases, and every row that is gone is superseded by a queued event |
| PipelineRuns.NoAckedWriteLost | src/worker/mod.rs:87-128 | in every reachable state an acked entry's id is in the table, or a queued event supersedes it and a strictly newer row of its author and kind is there; for regular kinds the id is |
| PipelineRuns.RegularRowStays | src/storage/postgres.rs:43-66 | a row of a regular kind is there for ever |
| PipelineRuns.StreamConserved | src/worker/mod.rs:62-109 | in every reachable state each entry has exactly one of the four fates |
| Acknowledgements.AckFollowsStore | src/worker/mod.rs:87-101 | over every run, the worker that acked an entry had stored that entry's event at an earlier step and been told so |
| Acknowledgements.AckedWriteFate | src/worker/mod.rs:87-101 | over every run, whatever its tags, an acked event was in the table, and is there still or the commit of an event that supersedes it took it away |
| PipelineRuns.NewestAckedServed | src/storage/postgres.rs:200-287 | a query with limit 1 is as new as every acked event of that author and kind |
| PipelineRuns.AloneTransactionIsStore | src/storage/postgres.rs:76-112 | statement by statement, an undisturbed transaction is one store |
| Hands.StepKeepsHands | src/worker/mod.rs:62-109 | what workers have in hand is pending, and no entry is ever in two hands |
| Hands.ReachedHanded | src/worker/mod.rs:43-109 | so in every state reached from before any worker started, whatever was pending then |
| Hands.StrandsIff | src/worker/mod.rs:87-108 | every step strands exactly the entries it drops: at a failure, a crash, an entry that does not parse, a lost reply or a lost XACK |
| Hands.StrandedForEver | src/storage/redis.rs:118-122 | a pending entry that no worker has in hand is never taken up again |
| Hands.DroppedForEver | src/worker/mod.rs:102-106 | in every run whatever a step drops stays pending and is never acked |
| Hands.AckableIff | src/worker/mod.rs:87-108 | a pending entry can still become acked exactly when some worker has it in hand and it parses |
| Hands.FailedEntryStranded | src/worker/mod.rs:102-106 | the counterexample to redelivery: a run of five steps that strands a queued event |
| Addresses.StepKeepsClass | src/storage/postgres.rs:123-162 | no step of any worker takes back the newest time of a class superseded only from within |
| AddressRuns.AddressKept | src/storage/postgres.rs:123-162 | under a condition on tags, from any state that has it, an acked addressable event's id is in the table or a strictly newer row of its own address is |
| AddressRuns.AddressNewestKept | src/storage/postgres.rs:123-162 | and over every run from such a state the address's newest committed time never decreases |
| AddressRuns.ConfinedIff | src/storage/postgres.rs:72-163 | for any class of rows and any events: no run over them takes back its newest time, and none loses an acked event of it, exactly when only its own events supersede rows of it |
| AddressRuns.AddressIff | src/storage/postgres.rs:118-163 | for addresses that condition is on tags and times |
| Worker.ProcessEntry | src/worker/mod.rs:113-128 | succeeds exactly when the entry parses and its store is reported, and stores nothing else |
| Worker.ProcessBatch | src/worker/mod.rs:87-108 | every entry is attempted in order, exactly those reported are acked, and it is a run of the machine |
| Worker.OneRound | src/worker/mod.rs:62-109 | a failed or empty read changes nothing else; otherwise the whole batch, of at most 50 entries, is processed |
| Worker.RunWorker | src/worker/mod.rs:43-110 | whatever fails, the loop is a run of one worker of the machine: entries conserved, newest times kept, nothing acked that is not stored or superseded |
| Protocol.HistoryLimit | src/websocket/mod.rs:214-217 | the smaller of the filter's limit, 100 by default, and the cap |
| Protocol.ParseFiltersMeans | src/websocket/mod.rs:177-183 | a REQ parses exactly when every filter does, and they keep their order |
| Protocol.ParseMeans | src/websocket/mod.rs:105-128 | parsing is the exact inverse of the layouts `["EVENT", event, ...]`, `["REQ", id, filter...]` with every filter kept in order, and `["CLOSE", id, ...]`; a frame of none of them is bad |
| RelaySteps.StepKept | src/websocket/mod.rs:69-96 | every step of every connection and worker keeps all invariants |
| RelaySteps.RunKept | src/websocket/mod.rs:69-96 | so does every run |
| RelayTheorems.ReachedFromNothing | src/relay/mod.rs:42-54 | whatever a run reaches from an empty relay, table and stream is a reached state, so all of the following holds of it |
| RelayTheorems.LimitsHold | src/websocket/mod.rs:185-209 | every client always holds at most the allowed subscriptions and filters, although check and add take separate locks |
| RelayTheorems.GoneForEver | src/relay/mod.rs:63-69 | once a connection's cleanup is over no run gives its id a subscription again |
| RelayTheorems.RunProjects | src/service/mod.rs:90-102 | every run of the relay is, for table and stream, a run of the pipeline machine |
| RelayTheorems.AckedWritesKept | src/worker/mod.rs:87-128 | so no acknowledged write is lost in the whole relay: it is stored, or superseded by a queued event with a newer row of its author and kind there |
| RelayTheorems.EverythingGated | src/service/mod.rs:30-118 | whatever is in the stream, the table or a live message passed the gate; ephemeral events reach neither stream nor table; others are queued before they are broadcast |
| RelayRefusals.RefusedFrameChangesNothing | src/service/mod.rs:32-101 | from the receipt of a frame to the reply that refuses it, the handler changes nothing but its own connection and outbox, and the stream by exactly its own event when only the reply of the XADD was lost |
| RelayTheorems.RepliesInOrder | src/websocket/mod.rs:105-253 | live events aside, an outbox is frame after frame one OK, one NOTICE, or the bounded history and one EOSE |
| RelayTheorems.DeliverySound | src/relay/mod.rs:74-94 | every live event was caused by a snapshot in which that client had that subscription with a matching filter |
| RelayTheorems.NothingMissed | src/websocket/mod.rs:205-243 | a client still connected, with its subscription open, has every accepted event a query-exact filter matches, unless it was broadcast before and, when queried, its row was there and cut, or not there: ephemeral, not yet acked, or superseded by a queued event |
| RelayReplies.FramesAnswered | src/websocket/mod.rs:69-80 | under any interleaving a connection's text frames are answered one for one, in order: an EVENT with one OK or NOTICE, a REQ with its history and one EOSE or with one NOTICE |
| RelayOnce.LiveAtMostOnce | src/relay/mod.rs:82-91 | no broadcast ever sends a subscription its event twice, under any interleaving |
| AppSpec.ServesNext | src/relay/mod.rs:83-91 | one more target served is one more message to its client alone |
| App.AppState.constructor | src/relay/mod.rs:42-54 | starts with no client over whatever earlier runs left in table and stream |
| App.AppState.AddClient | src/relay/mod.rs:57-60 | registers a client with an empty channel |
| App.AppState.RemoveClient | src/relay/mod.rs:63-69 | deregisters the client and removes exactly its subscriptions |
| App.AppState.BroadcastEvent | src/relay/mod.rs:74-94 | appends exactly one message per matching subscription of a registered client, and nothing elsewhere |
| App.AppState.CheckEvent | src/service/mod.rs:32-58 | passes exactly the admitted events, and names the first failing check (its conditions: `Events.RefusedBecause`) |
| App.AppState.CheckDuplicate | src/service/mod.rs:62-80 | an event in the table, or that cannot be looked up, goes no further |
| App.AppState.QueueEvent | src/service/mod.rs:85-102 | queues what is not ephemeral and fails when the command does |
| App.AppState.HandleEvent | src/service/mod.rs:30-118 | accepts exactly the admitted events that are ephemeral or both new and queued, broadcasts them once, and otherwise changes nothing |
| App.AppState.HandleClientEvent | src/websocket/mod.rs:132-161 | every parsed EVENT gets exactly one OK, after the live copies of its own broadcast |
| App.AppState.FetchHistory | src/websocket/mod.rs:214-231 | a legal answer to the filter under its capped limit, or nothing when the query fails |
| App.AppState.HandleClientReq | src/websocket/mod.rs:165-253 | an accepted REQ registers, then sends each history and one EOSE whatever fails; a refused one changes no subscription |
| App.AppState.HandleClientClose | src/websocket/mod.rs:257-270 | removes that subscription and nothing else, with no reply |
| App.AppState.DispatchMessage | src/websocket/mod.rs:105-128 | the frame is answered once by its handler, or fails and leaves all but its own connection unchanged |
| App.AppState.ServeText | src/websocket/mod.rs:71-81 | a failed frame gets exactly one NOTICE |
| App.AppState.ServeFrames | src/websocket/mod.rs:69-92 | the text frames before the first close frame are answered one for one, in order; pings and other frames leave the connection as it is |
| App.AppState.HandleSocket | src/websocket/mod.rs:44-98 | a whole connection: a fresh id, replies exactly the answers to its frames, and afterwards no client and no subscription left |

## Left out

- SHA-256, Schnorr verification and hex decoding of keys are functions of the environment; only collision-freedom among the events received is assumed.
- Canonical.PrintLeast: compares with the JSON texts of arrays, strings and whole numbers written out; objects, literals, fractions and exponents, of which a preimage has none, are not read.
- Parsing JSON text into values, events and filters: a frame arrives as values together with what they parse as.
- The WebSocket transport, forwarding an outbox to the socket, pings, connection pools, reconnects, timeouts and sleeps. A failure is a choice at each remote call.
- Redis pub/sub for ephemeral events and the event cache with its expiry: they change nothing the relay reads; their failures are ignored in the code and have no effect in the model.
- Configuration, start-up, logging, the health and relay-information handlers, indexes, `truncate` and the text of NOTICE and OK messages (the reason is kept as a value).
- Liveness: that a queued event is ever stored. A failed entry is not, as shown.
- Several relay processes at once: one process with any number of workers is modelled; entries that others add to the stream appear as entries that do not parse.
- Overflow of `max_subscriptions_per_client * 50`: the handlers require that it fits 64 bits.
- Handing out a client id and registering it are one step of the machine; between them the new connection does nothing.
- Worker.RunWorker: runs a finite list of rounds where the source loops for ever, every finite part of the endless run being such a list; and it starts from, and is fed with, what the relay's own gate lets into the stream (`RelayTheorems.EverythingGated`).
- App.AppState.constructor: assumes that table and stream hold only what earlier runs of the relay put there.
- App.AppState.HandleSocket: one connection served without interruption; interruptions are the relay machine's subject, whose runs include this one.
- Postgres.PgStore.StoreEvent: one call at a time; statements of different workers interleave in the pipeline machine instead.
- ClientIds.IdSource.Issue: distinct for up to 2^64 ids, which is as far as the counter goes.
