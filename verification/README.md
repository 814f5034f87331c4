# NeXT-Server: the accounting and synchronisation core, verified

NeXT-Server runs a proxy node for a panel. A pull loop keeps the node's config, user
list and detect rules those of the panel, a push loop reports traffic, online
addresses and rule hits, and every proxied connection counts bytes into a user table
that both loops share. This project models that core and proves what it promises.

`dafny verify dfyconfig.toml` checks everything.

## What is here

| files | what they model |
|---|---|
| `Ledger`, `LedgerInvariant`, `Conservation`, `History`, `Lifecycle`, `Draining`, `LedgerWitness` | the user table as an interleaving machine: each atomic load, swap, store or locked section of `users.go` is a step of the pull goroutine, the push goroutine or a connection; `History` reads off the steps alone what the machine's books have to say |
| `Users`, `Online`, `OnlineList` | one user's state on the heap: connections, addresses, speed limit, and what a push lists as online |
| `Accounts`, `Collecting`, `Registry`, `Updating`, `UserTable`, `TableClient` | the table itself as an object; its ghost field `world` is a state of the ledger machine that the machine can reach, and `Valid()` ties every object to its cell, its own limiter and its own connections; `TableClient` uses it through its contracts alone |
| `Panel`, `Pull`, `PullProperties`, `PullWitness` | conditional fetching, the listener, the pull loop: a machine over rounds |
| `NodeTable`, `Server`, `NodeClient` | the node as an object: both loops, connections and Close on one user table and one listener; its ghost field `rounds` is the run of that machine so far; `NodeClient` uses it through its contracts alone |
| `MessageKey`, `EventLimiter` | what makes two error messages one problem, and how often it is reported |
| `Limits` | the per-user token bucket |
| `Destination` | what is a private destination, and the two filters that refuse it |
| `Audit` | detect rules and the delivery of their hits |

Two kinds of model sit side by side. Where the source changes state, a class has the
source's fields and methods, and each method's contract says which step (or steps) of
a machine on values it makes. What holds over whole runs is proved about the machine.

Some properties one might expect turn out false of the code. The code is modelled as it
is; a lemma gives a run that shows the failure, and another says exactly when the
property does hold:

- `collectTraffic` swaps a retired state's counters and then reads its connection count
  (users.go:173). Bytes counted in between by a connection that ends in between are
  lost, and so are bytes of a connection that looked its user up before the state was
  dropped and opened after (router.go:29 and router.go:54). `LedgerWitness` has both
  runs; `Conservation.ExactlyWhenConserved` says no other run loses a byte.
- A failed `UpdateUsers` on a running listener is never retried while the panel's list
  stays the same (server.go:283-287). See `PullWitness.FailedUpdateSticks` and
  `PullProperties.ConvergesExactlyWhen`.
- A node limit that changes while no listener runs does not reach the table
  (server.go:221-223 tests `runningConfig`). See `PullWitness.SkippedLimitSticks` and
  `PullProperties.LimitsAgreeExactlyWhen`.
- An update whose list names a user twice, once without a limit, replaces that user's
  limiter although the limit was and ends positive (users.go:136-143): connections that
  took the old one stay with it. See `TableClients.RepeatedIdSplitsLimiter`;
  `UserTables.UserTable.Update` says exactly when the limiter stays.
- The two destination filters treat an invalid address differently, the router keeps
  it and the dialer refuses it. This marks the limit of `Destination.FiltersAgreeOnResolved`
  and `Destination.FiltersAgreeOnIPs`; no resolver is known to answer with one.
- A message that is first denied for the rate is not tracked, so its first report says
  nothing was held back: `EventLimiter.FirstDenialsForgotten`, `EventLimiter.ReportedIsDenied`.

## Model

| member | source | states |
|---|---|---|
| `LedgerInvariant.StepKeeps` | users.go:133-206 | every step of every goroutine keeps: served, retiring and retired states are disjoint and without duplicates, served ones are named by their ID and not cancelled, retired ones are cancelled, and each state's active count is the number of its open connections |
| `LedgerInvariant.PushNeverStuck` | users.go:157-206 | whatever the others do, the push goroutine always has a next step |
| `LedgerInvariant.PublishedAreKnown` | users.go:133-144 | each ID of a published list leads to the state it had, or to a fresh one with zero counters |
| `Ledger.ServesKept` | users.go:136-143 | an ID that was served keeps its state, also if the list repeats it |
| `Ledger.ServesFresh` | users.go:136-143 | one that was not leads to a state made for it now, with zero counters and no connection |
| `Ledger.FindRetired` | users.go:189-194 | the state found is retired and has the ID; none found means no retired state has it |
| `Ledger.FindsFirst` | users.go:189-194 | and it is the first such state of the list |
| `Conservation.RunKeepsInv` | users.go:133-206 | that invariant holds after every finite interleaving |
| `Conservation.EveryByteAccounted` | users.go:157-206 | in every interleaving, for each user and direction, bytes counted are those acknowledged, those in flight, those in tracked states and those lost to a late count |
| `History.CountedIsCounted` | router.go:58 | in every run the ledger's counted bytes of a user are, per direction, the sum over the count steps of the connections that looked that user up, read off the steps alone |
| `History.AckedIsDelivered` | server.go:309-315 | in every run the acknowledged bytes are those of the batches whose report came back acknowledged; a failed report adds nothing |
| `History.BalanceOfARun` | users.go:157-206 | so in every run what the connections of a user counted was delivered, is in the batch under way, is in the counters of a tracked state or came late; in a timely run nothing came late |
| `History.ConnKeepsState` | router.go:29-58 | a connection keeps the state that served its user when it looked it up, whatever updates follow |
| `History.PhasesAre` | router.go:54-64 | in every run a connection is open from its open step to its close step |
| `History.ServedIsLastList` | users.go:133-144 | in every run exactly the users of the last list are served |
| `History.ReportsAreWorth` | users.go:161-166 | in every run a report has an item and no item of it is empty |
| `Conservation.StepLaw` | users.go:157-206 | each single step keeps that balance |
| `Conservation.TimelyRunsLoseNothing` | users.go:157-181 | if no connection opens on a dropped state and none counts between a state's swap and the read of its connections, dropped states are empty and stay without open connections |
| `Conservation.ConservationTheorem` | users.go:133-206 | in such a run bytes counted equal bytes acknowledged, in flight and in tracked states, also across removal and re-adding of an ID |
| `Conservation.ExactlyWhenConserved` | users.go:170-179 | in any run at all that equation holds if and only if no byte was counted on a state after the last swap before it was dropped |
| `Conservation.LostIsLate` | users.go:170-179 | the lost bytes are exactly those late counts |
| `Conservation.ReachableByRun` | users.go:133-206 | a state belongs to every set closed under the steps if and only if some run ends in it |
| `LedgerWitness.LateCountLosesBytes` | users.go:172-176 | a run in which a count between swap and read of the connections loses bytes |
| `LedgerWitness.LateOpenLosesBytes` | router.go:27-54 | a run in which a connection opened after its state was dropped loses bytes |
| `LedgerWitness.FallbackIsReachable` | users.go:195-200 | an update that overlaps a collect can make restoreTraffic need its fallback |
| `Lifecycle.ServedIdentity` | users.go:133-144 | a served state is the same object as long as its ID is served; an ID that appears gets a fresh one with zero counters |
| `Lifecycle.RetiredNeverServed` | users.go:145-152 | once retired, a state is cancelled and not served again, however the run goes on |
| `Lifecycle.DroppedForGood` | users.go:170-179 | a dropped state is never tracked again, and in a timely run has zero counters and no connection from then on |
| `Lifecycle.LeavesTableOnlyIdle` | users.go:170-179 | a step takes a state out of the table only where the pass decides about a cancelled one without an open connection |
| `Lifecycle.DropsOnlyIdle` | users.go:172-176 | in a timely run a retired state is dropped if and only if it had nothing to report, its counters are zero and it has no open connection |
| `Lifecycle.FallbackNeedsOverlap` | users.go:184-206 | restoreTraffic takes its fallback only in runs where an update overlaps a collect or a restore; updates that lie inside the report, and any number of them, do not lead to it |
| `Collecting.SurvivorsAre` | users.go:170-179 | the pass keeps exactly the retired states with traffic or an open connection |
| `Collecting.SurvivorsKeepOrder` | users.go:170-179 | in the order they had |
| `Collecting.AfterOne` | users.go:157-181 | after one collect, kept states have empty counters and the same connections |
| `Draining.IdleGoneAfterTwoPasses` | users.go:170-179 | in every interleaving, a retired state without connections is gone once two passes that began since are over, unless a connection opens or counts on it or a restore adds to it; all other users, updates, reports and restores go on as they like |
| `Collecting.IdleGoneAfterTwo` | users.go:157-181 | for two collects that run alone with nothing in between: a retired state is left if and only if it has an open connection |
| `Collecting.CollectTakesAll` | server.go:155-159 | a collect that runs alone takes, per user and direction, everything the table holds: items plus acknowledged plus earlier losses are all bytes counted |
| `Draining.CollectMissesOnlyLater` | server.go:155-159 | whatever connections count and updates do during a collect that begins with no removed user waiting to be retired, what was counted before it began is acknowledged or in its items when it ends, but for bytes lost to a late count; in a timely run there are none |
| `Collecting.SameOwed` | server.go:309-315 | between two states with the same bytes counted and lost, acknowledged plus owed bytes are the same |
| `UserTables.UserTable.CollectTraffic` | users.go:157-181 | the loops over the objects, with the in-place compaction, make exactly the machine's collect: same items, same survivors, counters zeroed |
| `UserTables.UserTable.CollectPass` | users.go:170-179 | compacting the retired list in place keeps exactly the survivors |
| `UserTables.UserTable.CollectCurrent` | users.go:167-169 | ranging over the served map, in any order, collects each served state once |
| `UserTables.UserTable.Update` | users.go:133-153 | update makes the publish and the retire step, serves exactly the IDs of the list with the stricter of the node's limit and that of the last entry, keeps the state of every ID that stays, and keeps the limiter a user had if and only if no entry of it has no limit; the table stays sound and owns only what it owned and new objects |
| `Updating.BuildNext` | users.go:134-143 | the loop over the new list: kept IDs keep their objects, new ones get fresh unused objects, each state has its own limiter, and a limiter a user had stays if and only if no entry takes its limit away |
| `Updating.CancelAll` | users.go:146-151 | every state that leaves is cancelled and appended to the retired list |
| `Updating.Leaving` | users.go:146-147 | the states that leave are exactly those of IDs the new list lacks, once each, in any order |
| `UserTables.UserTable.PublishNext` | users.go:144 | publishing the new map is the machine's Publish step |
| `UserTables.UserTable.RetireAll` | users.go:145-152 | the locked section is its Retire step |
| `UserTables.UserTable.RestoreTraffic` | users.go:184-206 | puts a failed batch back item by item and ends idle, with nothing lost, acknowledged or counted meanwhile |
| `UserTables.UserTable.StateFor` | users.go:185-204 | the served state of the item's user; else its first retired state; else a new cancelled state at the end of the retired list, and in no other case does that list change |
| `UserTables.UserTable.Credit` | users.go:204-205 | both counters of the state grow by the item, which are the two add steps |
| `UserTables.UserTable.FindRetired` | users.go:188-194 | the search finds the first retired state of an ID, if there is one |
| `UserTables.UserTable.PushTraffic` | server.go:309-315 | whether the report is delivered or fails, acknowledged plus owed bytes are unchanged for every user; a delivered one leaves nothing owed if no removed user is still waiting to be retired |
| `UserTables.UserTable.FinalCollect` | server.go:155-159 | the last collect's items are, per user and direction, exactly the bytes owed, and with those acknowledged and lost all the bytes counted |
| `UserTables.UserTable.Report` | server.go:310-314 | a delivered batch joins the acknowledged bytes; a failed one is put back and nothing else changes |
| `UserTables.FinalCollectConserves` | server.go:145-161 | after any timely run with both loops done, a last collect that runs alone leaves nothing: its items and what was acknowledged before are all the bytes ever counted |
| `UserTables.CollectedReaches` | users.go:157-181 | a collect that runs alone is a run of the machine |
| `UserTables.UserTable.Get` | router.go:132-143 | a lookup is null exactly for an ID that is not served, and otherwise makes the Lookup step |
| `UserTables.UserTable.OpenOn` | router.go:54 | opening a connection on a state of the table makes the Open step and keeps the table sound |
| `UserTables.UserTable.CountOn` | router.go:58 | counting adds to both counters of the state and makes the Count step |
| `UserTables.UserTable.DoneOn` | router.go:60-64 | ending a connection makes the Close step and leaves an event of its address |
| `UserTables.UserTable.ListOnline` | server.go:291-306 | the list of a push that asks for what happened since the previous push began holds, once each, exactly the online addresses of the served users, and leaves every served state ready for the next push |
| `TableClients.TrafficSurvivesRemoval` | users.go:133-206 | what a user uploads reaches the panel although the first report fails and the user is removed while connected, shown on the table's contracts from its constructor on |
| `TableClients.RepeatedIdSplitsLimiter` | users.go:136-143 | a list that names a user twice, first without a limit, gives it a new limiter, and later limits do not reach the old one |
| `Registries.SetLimit` | users.go:44-54 | setting one state's limit leaves every other state's limiter and rate |
| `Registries.OpenIn` | users.go:58-70 | opening a connection on one state leaves every other state's connections and addresses |
| `Registries.DoneIn` | users.go:71-80 | ending one does too |
| `Accounts.EffectiveLimit` | users.go:208-214 | the result is one of the two, 0 exactly if both are, and no laxer than any limit that is set |
| `Accounts.LastLimitIs` | users.go:136-143 | the limit that counts for a user is that of the entry after which it has no other |
| `Users.UserState.SetSpeedLimit` | users.go:44-54 | no limiter for 0; otherwise one with that rate, the same object as before if there was one |
| `Users.UserState.Open` | users.go:58-70 | records the unmapped address with one connection more and the time, in the objects and in the history, and returns a live connection to that very entry |
| `Users.UserState.Done` | users.go:71-81 | the first call takes one connection off the entry, dates it and leaves an event; later calls change nothing |
| `Users.UserState.OnlineIPs` | users.go:84-96 | returns each online address once, and the table then holds exactly those |
| `Online.OpenIsCounted` | users.go:71-78 | a live connection's address is in the table with a positive count, so `done` never underflows |
| `Online.OpenKeeps` | users.go:58-69 | opening keeps: counts are the numbers of connections not done, last-seen is the last event, and what no push has listed opened after the last one |
| `Online.CloseKeeps` | users.go:71-80 | ending a connection keeps that |
| `Online.PushKeeps` | users.go:84-96 | a push in turn keeps that |
| `Online.ActiveIsSum` | users.go:16-36 | a user's active count is the sum of the counts per address |
| `Users.ActiveIsSum` | users.go:16-36 | on the objects: in every valid user state the active count is the sum of the counts in the address table and the number of connections not done yet |
| `Online.RecentIsOnline` | users.go:89 | the test on count and last-seen time is the same as "open now or an event since" |
| `Online.EveryConnectionListed` | users.go:84-96 | after a push in turn, every connection so far has been listed |
| `Online.NoGaps` | server.go:291-306 | over every run of a served user and the push loop, also for a user the running push already visits: each push lists exactly the addresses open now or with an event since the previous push began, and leaves no connection unlisted |
| `OnlineLists.ListOnline` | server.go:295-306 | the list of a push holds, once each, exactly the online addresses of the served users |
| `OnlineLists.ListSound` | server.go:295-306 | listing keeps every state valid and puts the served ones in turn for the next push |
| `Limits.Burst` | common/limit/limiter.go:44-46 | the rate, but no less than 65536 and no more than 2^31-1 |
| `Limits.WindowBound` | common/limit/limiter.go:19-60 | at a fixed rate, from whatever the bucket holds, what all connections of a user are granted in one direction in any window is at most burst plus rate times length |
| `Limits.Limiter.Wait` | common/limit/limiter.go:50-60 | grants exactly n bytes in whole bursts and one last chunk, or stops at the first wait the context refuses; the bucket is then where those requests leave it |
| `Limits.Limiter.SetLimit` | common/limit/limiter.go:36-42 | changes rate and burst of the same object and keeps what both buckets hold |
| `Limits.Limiter.WaitN` | common/limit/limiter.go:53 | a reservation of at most one burst changes one direction only; a context that is done takes nothing, one that ends while waiting leaves what it gives back |
| `Limits.ReserveStep` | common/limit/limiter.go:50-60 | each grant is paid by what the previous one left and what accrued since |
| `Limits.GrantIs` | common/limit/limiter.go:53 | a reservation takes its bytes off the fill, which the burst caps; it passes at once if the fill covers it and otherwise exactly when the rate has made up for what is missing |
| `Limits.FillIsLeast` | common/limit/limiter.go:50-60 | after any requests the bucket holds the least of what they leave in one that was full at one of them and of what they leave in one that was never full |
| `Limits.ServesWhenPaid` | common/limit/limiter.go:50-60 | each request of any sequence passes at once or exactly when what the bucket is overdrawn by has accrued |
| `Panel.Client.FetchNodeConfig` | api/serverv1/node.go:61-74 | returns the config of a fresh answer; keeps the ETag on an error or a 304 and clears it if the config does not parse |
| `Panel.Client.FetchUsers` | api/serverv1/node.go:227-256 | the accepted entries of a fresh answer; a node that is unavailable, and no other answer, clears the ETag and says so; an answer that is not one of the panel's versions gives no list |
| `Panel.Client.FetchDetectRules` | api/serverv1/node.go:264-286 | the rules of a fresh answer that compile; the ETag is kept even if some do not |
| `Panel.AcceptedAre` | api/serverv1/node.go:243-255 | a user is accepted if and only if the panel lists it with a positive ID |
| `Panel.CompiledAre` | api/serverv1/node.go:270-285 | a rule applies if and only if the panel lists it and it compiles |
| `Panel.AcceptedConcat` | api/serverv1/node.go:243-255 | accepted users keep the panel's order |
| `Panel.AcceptedOne` | api/serverv1/node.go:243-255 | each entry makes one user or none |
| `Panel.CompiledConcat` | api/serverv1/node.go:270-285 | and so do rules |
| `Panel.CompiledOne` | api/serverv1/node.go:270-285 | each entry makes one rule or none |
| `Panel.InfoRefines` | api/serverv1/client.go:81-98 | a conditional fetch of the config leaves applied what a full one would, and a non-empty ETag names it |
| `Panel.UsersRefine` | api/serverv1/node.go:227-256 | the same for the users, through unavailability |
| `Panel.RulesRefine` | api/serverv1/node.go:264-286 | the same for the rules |
| `Pull.RunNames` | api/serverv1/client.go:50-53 | in every run with whatever faults, a non-empty ETag names the version applied now |
| `Pull.ConditionalRefinesFull` | server.go:184-214 | in every run, config, user list and rules are those of a node that never sends If-None-Match, whatever happens to either's listener |
| `PullProperties.ConfigAfter` | server.go:185-189 | after a pull from any state: the config is the one sent, if one was sent and could be parsed, and else the one of before; one that could not be parsed clears the ETag |
| `PullProperties.UsersAfter` | server.go:192-203 | the users are those sent, none if the panel will not serve this node, and those of before after any other answer: one that never came or made no sense removes nobody |
| `PullProperties.RulesAfter` | server.go:207-214 | the rules are those sent, and those of before after any other answer |
| `PullProperties.ListenerAfter` | server.go:274-289 | a running listener has the list of this pull, what a failed UpdateUsers left it, the list of before if it was rebuilt, or else what it had |
| `PullProperties.StartsExactlyWhen` | server.go:112-131 | Start succeeds if and only if the config came and could be parsed, the users came or the panel will not serve this node, and the listener was made, loaded and started; the node then has what came |
| `PullProperties.OneListener` | server.go:219-261 | in every run, after every event at most one listener exists; it is the started node server, which is there exactly if the running config is and was built from it up to the speed limit |
| `PullProperties.RebuildsExactlyWhenNeeded` | server.go:219-272 | a pull leaves the listener alone, with the new config noted, if and only if one runs and the config of now differs from the running one in the speed limit at most; otherwise it closes it and tries once to build another, which stands if and only if made, loaded and started, and a failure leaves neither listener nor running config |
| `PullProperties.ConvergesExactlyWhen` | server.go:184-289 | from any reachable state one fault-free pull makes config, users, table and rules the panel's; the listener follows if and only if the list was sent, the listener was rebuilt, or it already had the node's list |
| `PullProperties.Convergence` | server.go:184-289 | so it follows wherever no UpdateUsers on a running listener failed |
| `PullProperties.TableBeforeListener` | server.go:274-283 | in every run, whenever a listener is given a list, taken or not, the table already routes exactly the IDs of that list |
| `PullWitness.FailedUpdateSticks` | server.go:283-287 | a run with a panel that uses each ETag for one content: after one failed UpdateUsers no number of fault-free pulls brings the listener the new list |
| `PullProperties.SpeedLimitsAgree` | server.go:219-227 | in every run where the node limit does not change while no listener runs, unless the users come with it, every user has the limit the panel asks for after every pull |
| `Servers.LimitersAgree` | server.go:219-227 | on the objects: in such a run every served user's limiter is absent if its effective limit is 0 and has that rate otherwise |
| `Servers.LimitersAgreeExactlyWhen` | server.go:219-227 | on the objects and in any run: that holds if and only if the node limit the table last took comes to the same, for every user, as the one of now |
| `PullProperties.LimitsAgreeExactlyWhen` | server.go:219-227 | after a pull from any reachable state every user has the limit the panel asks for if and only if the panel sent its users, or the limit changed under a running listener, or the limit the table last took comes to the same for every user |
| `PullProperties.LimitsAgreeInRuns` | server.go:219-227 | over any run that holds if and only if the node limits of now and of the last round that updated the table come to the same for every user |
| `PullWitness.SkippedLimitSticks` | server.go:221-223 | a run with such a panel in which the table keeps the old node limit through any number of fault-free pulls |
| `PullWitness.StaleLimitIsWrong` | server.go:221-223 | in that run a user is served with the wrong limit |
| `Servers.Server.SyncNodeServer` | server.go:219-261 | makes the machine's sync on the table and the listener and keeps the one-listener invariant; the table's push, connections and counted, acknowledged and lost bytes are untouched, no state is given up, and a user keeps its limiter unless the refresh takes its limit away |
| `Servers.Server.Build` | server.go:237-260 | a listener is made, given the users and started, or closed again at the first failure |
| `Servers.Server.ApplyUsers` | server.go:274-289 | the table takes the new users, then a running listener takes them or is left as the failed call leaves it; the ledger is untouched, and a user keeps its limiter if and only if no entry of it is without a limit |
| `Servers.Server.PullUsers` | server.go:192-203 | a node the panel will not serve takes the empty list, any other failed or unmodified fetch changes nothing; the ledger is untouched either way |
| `Servers.Server.PullDetectRules` | server.go:207-214 | fresh rules replace the old ones, a failed or unmodified fetch leaves them |
| `Servers.Server.Stop` | server.go:228-233 | the running listener is closed and forgotten with its config |
| `Servers.Server.PullOnce` | server.go:184-205 | fetch config, sync, fetch and apply users, fetch rules, in that order: the next round of the machine; the table's push, connections and bytes are untouched, and a user served before and after keeps the limiter it had if and only if neither the refresh nor the list sent takes its limit away |
| `Servers.PullCarries` | server.go:184-205 | that condition, from the two updates a pull may make |
| `Servers.Server.Start` | server.go:112-131 | succeeds exactly if config and users could be fetched and the listener started, and is then the first round; the ledger is untouched |
| `Servers.Server.PushOnce` | server.go:291-315 | lists exactly what was online since the previous push began, moves the bytes owed to the acknowledged ones or leaves them owed, and leaves the pull loop's state as it is |
| `Servers.Server.Connect` | router.go:27-54 | a connection is refused exactly if its user is not served, and is otherwise open on the state that serves the user; no byte and neither loop is touched (auditing, resolving and the destination check in between are modelled on their own) |
| `Servers.Server.CountBytes` | router.go:58 | on a node, too, counting adds to both counters and is the Count step, and leaves the pull loop's state as it is |
| `Servers.Server.Disconnect` | router.go:60-64 | and so is the first call of done the close step |
| `Servers.Server.Close` | server.go:145-161 | no listener is left, and the last collect's items are what was owed: with them every byte counted is acknowledged, reported last or lost to a late count |
| `NodeClients.BeginAndPull` | server.go:112-205 | a node that starts and pulls once is where those two rounds of the machine lead, and ready to push |
| `NodeClients.WindDown` | server.go:145-205 | any running node, with whatever connections and bytes: after a pull with any answers, a push with any outcome and Close, every byte counted is acknowledged, in the last report or lost to a late count; if the push was delivered the last report is empty |
| `NodeClients.Delivers` | server.go:112-315 | end to end: a node starts, a connection of a served user counts, any pull follows, the user's removal included, and a delivered push acknowledges exactly the bytes counted, in each direction |
| `EventLimiter.SentWithinBound` | common/reporter/limit.go:11-18 | for all call sequences in time order, what is sent in any window is at most 10 and one more per 10 seconds |
| `EventLimiter.SendsExactlyWhen` | common/reporter/limit.go:54-64 | over every run in time order and on the log alone: a call is sent if and only if its key was not sent in the last 600 s and one more send keeps every window up to now within 10 and one per 10 s |
| `EventLimiter.LogIsDetermined` | common/reporter/limit.go:49-78 | every call of a run is answered so |
| `EventLimiter.MapBound` | common/reporter/limit.go:69-76 | fewer than 70 keys are unexpired at any time, a purge leaves at most 70, and the map never exceeds 1000 |
| `EventLimiter.FewUnexpired` | common/reporter/limit.go:69-76 | unexpired keys are bounded through the rate |
| `EventLimiter.RepeatsAreApart` | common/reporter/limit.go:54-58 | two sends of a key are at least the repeat window apart, despite eviction |
| `EventLimiter.ReportedIsDenied` | common/reporter/limit.go:59-77 | the count returned never exceeds the calls of the key denied since its last send, and equals it if and only if the key is still tracked or there were none |
| `EventLimiter.ReportsAllWhileRoomy` | common/reporter/limit.go:65-76 | as long as fewer than 1000 different keys were sent, a call that is sent reports every call of its key denied since it was last sent, and 0 for a key never sent |
| `EventLimiter.FirstDenialsForgotten` | common/reporter/limit.go:59-64 | a run in which it is too small |
| `EventLimiter.Limiter.Allow` | common/reporter/limit.go:49-78 | the method with its deleting loop answers and updates as the machine does |
| `EventLimiter.Limiter.Purge` | common/reporter/limit.go:69-75 | the deleting loop leaves exactly the unexpired entries |
| `MessageKey.ReplaceIsKey` | common/reporter/limit.go:20-22 | the regular expression replaces exactly each maximal run of hex digits that holds a decimal digit |
| `MessageKey.MatchIsLongest` | common/reporter/limit.go:20-22 | a match is the longest string of the pattern's language that starts there, and none is missed |
| `MessageKey.DigitFree` | common/reporter/limit.go:50 | a key has no decimal digit |
| `MessageKey.Idempotent` | common/reporter/limit.go:50 | normalising a key changes nothing |
| `MessageKey.DigitFreeStays` | common/reporter/limit.go:50 | a message without a decimal digit is its own key |
| `MessageKey.KeyConcat` | common/reporter/limit.go:50 | where no run of hex digits reaches across, the key of a message is made of the keys of its parts |
| `MessageKey.DigitsAre` | common/reporter/limit.go:20-22 | the pattern's classes are the digits 0-9, a-f and A-F |
| `MessageKey.SwapKeepsKey` | common/reporter/limit.go:24-26 | messages that differ in one variable part have the same key |
| `Destination.PrivateIsTheRanges` | destination.go:19-41 | an address is private if and only if it is in one of the listed ranges |
| `Destination.MappingKeepsClass` | destination.go:30-31 | writing an IPv4 address in its IPv4-mapped form does not change its class |
| `Destination.RefusesExactly` | destination.go:72-79 | the dialer takes a domain if and only if it passes domains, and an address if and only if it is valid and in no listed range |
| `Destination.ResolveLeaves` | router.go:217-227 | a domain that is to be resolved gets the resolver's answers, unmapped and in order, or fails with it; anything else stays as it is |
| `Destination.CheckLeaves` | destination.go:45-61 | with private destinations allowed everything passes as it is; otherwise a private address is refused, and a destination with resolved addresses keeps exactly those that are not private and is refused if there are none |
| `Destination.PublicConcat` | destination.go:53 | in the order they had |
| `Destination.FiltersAgreeOnIPs` | destination.go:45-79 | for a valid IP, with whatever resolved addresses, the router does what the dialer's test says if and only if it refuses the destination or no address is invalid |
| `Destination.FiltersAgreeOnResolved` | destination.go:52-59 | for a resolved domain the router keeps, in order, exactly the addresses the dialer accepts and fails exactly if none remain; this holds if and only if no address is invalid |
| `Destination.RoutedIsDialable` | router.go:217-227 | after resolve and checkDestination, the dialer refuses nothing the router let through but invalid addresses and, where domains are to be resolved, a domain as such |
| `Destination.InboundContext.Check` | destination.go:45-61 | overwrites the addresses with the public ones, and leaves the metadata as it was when the destination is refused or private ones are allowed |
| `Destination.InboundContext.LookUp` | router.go:217-227 | a domain that is to be resolved and has no addresses gets the resolver's, unmapped; a failed lookup changes nothing |
| `Destination.FilteredPacketConn.WritePacket` | destination.go:106-112 | a packet is forwarded exactly if its destination is not refused; a dropped one is a success, a forwarded one fares as the socket does |
| `Destination.ForwardedMembers` | destination.go:99-119 | over any sequence of packets, forwarded and dropped ones together are all of them, and they are told apart by the dialer's test |
| `Destination.ForwardedAre` | destination.go:99-119 | over any sequence of packets, exactly those to such destinations reach the socket: none to a domain unless domains pass |
| `Destination.ForwardedConcat` | destination.go:99-119 | forwarding keeps order: it distributes over concatenation |
| `HitDelivery.NoHitIsLost` | audit.go:65-91 | in every interleaving a hit is pending or in flight if and only if it was recorded and no batch collected since with it was acknowledged |
| `HitDelivery.BatchIsOwed` | audit.go:71-83 | a batch holds, once each, exactly the hits owed when it was collected, each recorded before |
| `HitDelivery.ReportedAgainOnlyIfRecorded` | server.go:319-325 | a hit whose batch was acknowledged is in a later batch only if recorded again since it was collected |
| `DetectRules.FirstMatch` | audit.go:36-63 | the loop with its lazily encoded payload returns a rule that matches and comes after no other that does, or says there is none |
| `DetectRules.MatchesOneOf` | audit.go:43-61 | a rule of kind 2 matches if the payload in hex does, any other one if the host, the sniffed domain or the payload does; empty text never matches |
| `DetectRules.HexRoundTrip` | audit.go:50 | the hex text has two lower-case digits per byte, which stand for that byte |
| `DetectRules.HexIsInjective` | audit.go:50 | so different payloads have different texts |
| `Audit.Auditor.Match` | audit.go:36-63 | the same for the rules set last, and no match before any are set |
| `Audit.Auditor.Record` | audit.go:65-69 | recording is the machine's record step: a hit already pending is pending once |
| `Audit.Auditor.Collect` | audit.go:71-83 | takes every pending hit once and leaves none |
| `Audit.Auditor.Restore` | audit.go:85-91 | puts a failed batch back beside what was recorded meanwhile |
| `Audit.Auditor.PushDetectLogs` | server.go:319-325 | reports exactly the hits owed; they stay owed exactly if the report fails |

## Left out

- Granularity: an atomic load, swap, add or store and a section under a mutex is one step; bytes are counted only while a connection is open, as the copy loops do; one connection's reads and writes may count in any order.
- Object methods run without interruption; interleavings of their steps are covered by the machines, not by the objects.
- Integer widths: counters are unbounded, wrap-around of the int64 counters and of the uint64 rates is not modelled.
- Limits.WindowBound: at a fixed rate and on exact real arithmetic, not on the floating-point arithmetic of golang.org/x/time/rate; a rate or burst that changes while a connection waits is not modelled.
- Limits.Limiter.WaitN: what a context that ends while waiting gives back is any bucket; all connections of a user wait under the user's own context (router.go:56), so nothing is granted on that limiter after.
- Collecting.IdleGoneAfterTwo: two whole collects with nothing in between; Draining.IdleGoneAfterTwoPasses is the property over any interleaving.
- UserTables.FinalCollectConserves: the last collect runs alone; Draining.CollectMissesOnlyLater says what one misses while connections that are being closed still count.
- Servers.Server.Start: the first push asks for what happened since the node was made; the source asks for what happened since Start returned (server.go:131).
- Online.NoGaps: with a clock that does not run backwards; the number of online users in the heartbeat is not modelled.
- EventLimiter.Limiter.Allow: call times must not decrease, although the source reads the clock before it takes the lock.
- Destination.FiltersAgreeOnResolved: a domain is any non-empty name; the library's own test for domain names is not part of this model.
- Pull.ConditionalRefinesFull: for a panel that never uses one ETag for two contents. Parsing of the node config and compiling of rules are arbitrary outcomes carried by the panel's answer.
- Failures in Start end the process, so no run continues after one; the fate of the batch when the final report in Close fails is not modelled, since the source only returns the error.
- The protocol servers under proxy/, TLS, transports, sniffing, DNS lookup and the connection copy loops: foreign code behind thin wrappers; a node server is an object whose calls may fail.
- HTTP and JSON mechanics, number decoding, field defaults of the node config, Mbps conversion: easy branch-by-branch facts.
- Heartbeat and online reports that fail are only logged by the source, and left out.
- Logging, Sentry, pprof, build tags, command line and front-proxy dialers: plumbing.
