# Tic-Tac-Tussle, verified

A Dafny model of an event-sourced tic-tac-toe server and its clients. Commands are decided
against a state that is folded from an append-only log; accepted events are appended,
published and broadcast; every command comes back from a broker through two consumer groups;
clients fold what they are sent with the same function as the server. `dafny verify
dfyconfig.toml` checks the whole project.

## What is proved

| file | contents |
|---|---|
| `Types.dfy`, `Board.dfy`, `Decider.dfy` | the vocabulary, win and draw detection, `Decide` / `Evolve` / `Hydrate` |
| `Rules.dfy` | the game as its rules describe it: seats, two sets of marked cells, a turn |
| `Refinement.dfy` | the decider refines the rules, refusals included |
| `LogLanguage.dfy` | a validator of whole logs; it accepts exactly the producible ones |
| `History.dfy`, `GameFacts.dfy` | what a producible log records; invariants, endings, bounds, prefixes that cut a batch |
| `Redelivery.dfy` | repeated deliveries of accepted commands, and which refusals are final |
| `Replay.dfy` | folding some events twice |
| `EventStore.dfy`, `Ports.dfy`, `GameService.dfy`, `GameLoop.dfy`, `GameLoopFacts.dfy` | the imperative shell, as classes and methods proved against the functions above, and its effect told from the log and the queues |
| `Delivery.dfy`, `DeliverySteps.dfy`, `DeliveryInvariant.dfy`, `DeliveryFacts.dfy`, `DeliveryRuns.dfy` | the broker protocol as a step relation over arbitrary interleavings, its steps told from the decider, its invariant, what holds of every run, and what is possible in a run |
| `Replicas.dfy`, `Client.dfy` | what each client is sent, the client's copy and its read model of the players |
| `Simulation.dfy` | the replay harness |
| `UserData.dfy` | the name in the connection token |

The chain of the argument: `Rules.Game` is the reference. `Refinement.StateOf` gives the one
write-model state that stands for a reference game, so `Hydrate(log) == StateOf(g)` fixes every
field. `LogLanguage.Tells(log, g)` says that a log parses to `g` and folds to its state; every
producible log tells a well-formed game (`ProducibleTells`), and everything about boards, turns,
winners and counts is read off that game.

Every lemma switches automatic induction off: a proof by induction makes its recursive calls
itself.

Results where the code does less than a reader might expect, each with its exact condition:

- A win claimed by a placement is right exactly when the opponent had no line before it
  (`WinClaimSoundIff`). That always holds at batch boundaries, and never between a winning
  placement and its `GameEnded`, where the harness can stop and branch (`CutWinIsMisnamed`).
- A `LeaveGame` is never validated. It can be redelivered at any later time exactly when it was
  first handled outside the lobby (`LeaveRedeliverableIff`).
- A client that is connected for a while before the game loop catches it up is sent some events
  twice. Its state is the server's exactly when those events hold no join, or the game has
  started and their first join is the log's (`ReplicaAgreesIff`). Two connections in one turn of
  the loop can break this (`LateCatchUpDiverges`). Its player pair can never be wrong exactly when
  those events do not hold exactly one join (`PairNeverWrongIff`, for every client of a run
  `ClientPairNeverWrongIff`); one client's pair has the players swapped (`LatePairIsSwapped`).
- The comment at `server/src/main.rs:206-208` says that domain violations are acknowledged. They
  are not: `server/src/game_service.rs:53` turns them into text, so only the wrong game is
  recognised. The model follows the code (`GameLoop.Acknowledges`).
- The comment at `server/src/main.rs:218-222` says that retrying a domain violation never
  succeeds. That is so for joins (`JoinAcceptedLaterIff`). A placement can still be accepted
  exactly when it is `Live`: before the game, for any player; during it, on a free cell, for the
  player to move, or for the other one if some other free cell can be marked without ending the
  game (`PlacementAcceptedLaterIff`).
- `server/src/adapters/redpanda.rs:10-11` says that an unacknowledged message is redelivered.
  A fetched message is fetched again exactly when its group is rebalanced or the process is
  restarted while the offset is not committed, and the group gets past it again
  (`RefetchedIff`); it can be, in some continuation, exactly while the committed offset has not
  passed it (`RedeliverableIff`). Whether it was acknowledged does not matter: commits are
  cumulative, so a refused message may be passed over (`UnackedMayBePassedOver`). At-least-once
  handling does hold.
- Reading the log and appending to it are two critical sections. With a second writer the log
  can leave the language (`SecondWriterLeavesLanguage`). A batch decided on an outdated state may
  be appended exactly when deciding again would give the same batch (`StaleAppendIff`). The
  service is the only writer, and its invariant says that the log is producible.
- The harness can branch from a cursor inside a batch. An accepted branch gives a log that a
  server could have exactly when the cursor is between batches (`BranchIsProducibleIff`).

Assumptions about the surroundings: streams to clients are reliable and ordered, and a broadcast
reaches every client the network layer holds; one partition for the command topic; a rebalance
happens only while a consumer is fetching, and commits of the earlier generation that have not
been stored by then are rejected; the commits of one consumer reach the broker in the order in
which they were sent, if they are not lost; `usize` has 64 bits.

## Model

| member | source | states |
|---|---|---|
| BoardLogic.HasLineIffPattern | store/src/board.rs:11-20 | the eight patterns of the table are exactly the rows, columns and diagonals of the grid, for every board and symbol |
| BoardLogic.WinningSymbolSound | store/src/board.rs:25-34 | the scan answers a symbol if and only if some symbol has a whole row, column or diagonal, and the symbol it answers has one |
| BoardLogic.ScanOrderIrrelevant | store/src/board.rs:25-34 | when at most one symbol has a line, a scan of the table in any order answers that symbol or none |
| BoardLogic.FullIffAllCellsTaken | store/src/board.rs:37-39 | full means that the cells of X and O together are all nine |
| Decider.HydrateAppend | store/src/decider.rs:163-167 | hydrating a longer log is hydrating its beginning and folding the rest |
| Decider.LogOnlyGrows | server/src/game_service.rs:51-61 | handling commands only ever extends a log |
| Rules.PlayKeepsWellFormed | store/src/decider.rs:30-116 | legal moves keep the game's invariant: distinct seated players, disjoint marks, alternation, no line and a free cell while playing, an ending that the position justifies |
| Refinement.BoardTestsSettle | store/src/decider.rs:90-98 | at a reachable board, testing for any winner and for a full board decides the game as the rules do, with the last mover as the winner |
| Refinement.DeciderRefinesRules | store/src/decider.rs:30-158 | every command is accepted exactly when the rules allow it, refused with the error that the rules name, and the folded events lead to the state of the rules' next game |
| LogLanguage.HandleTells | store/src/decider.rs:30-167 | one command appends one readable batch that moves the game told by one legal move, or leaves the log as it is |
| LogLanguage.ProducibleTells | store/src/decider.rs:30-167 | every producible log is in range, parses to a well-formed game, and hydrates to exactly that game's state |
| LogLanguage.RebuildProduces | store/src/decider.rs:30-158 | the commands read back from an accepted log produce exactly that log |
| LogLanguage.ProducibleIffAccepted | store/src/decider.rs:30-158 | the exact language: a log is producible from the empty store by some commands if and only if the validator accepts it as whole batches |
| GameFacts.ParseAccounts | store/src/decider.rs:122-158 | conservation: joins, starts, placements per cell and endings of a log account exactly for the change of the game it tells |
| GameFacts.ReachableStatesKeepInvariant | store/src/decider.rs:35-158 | after whole batches: an empty lobby board with a free second seat; later two distinct players, an active one among them, equal marks or one more for X by turn; in play no line and a free cell |
| GameFacts.ActivePlayerCanMove | store/src/decider.rs:65-99 | in every reachable running game the player to move has an accepted placement |
| GameFacts.EndingsAreSound | store/src/decider.rs:86-98 | a game is over exactly when its log has an ending, it has one at most, and a won, drawn or abandoned ending claims what the board shows, with the winner's own line only |
| GameFacts.BoardDeterminesEnding | store/src/decider.rs:86-98 | conversely, the final board alone tells whether the log says won, by whom, or drawn |
| GameFacts.HeldPatternNamesWinner | store/src/board.rs:25-34 | on every reachable board any held pattern belongs to the winner the log names, and the scan finds that symbol |
| GameFacts.ScanOrderNeverMatters | store/src/board.rs:25-34 | on every reachable board a scan of the table in any other order gives the same answer |
| GameFacts.EventsAreBounded | store/src/decider.rs:30-158 | any run has at most 2 joins, 1 start, 9 placements and 1 ending, however many commands arrive |
| GameFacts.StageNeverGoesBack | store/src/decider.rs:30-158 | over any further commands the stage never goes back, and an ended state never changes in any field |
| GameFacts.BoardAndLogAgree | store/src/decider.rs:137-151 | each cell shows a player's symbol exactly when the log has one placement there, by that player and nobody else; marks and placements are equally many |
| GameFacts.LastBoundary | store/src/simulation.rs:31-39 | a cursor in an accepted log stands at a batch boundary, or inside a batch of two events whose end is a boundary |
| GameFacts.PrefixForms | store/src/simulation.rs:31-39 | every prefix of a producible log is producible, or cuts one batch of two events and is in one of three exactly described states |
| Redelivery.AcceptedThenRefusedForever | store/src/decider.rs:35-80 | an accepted join or placement is refused in every later state, whatever is handled in between |
| Redelivery.AcceptedAtMostOnce | server/src/main.rs:191-196 | of all deliveries of one join or placement in a run at most one is accepted |
| Redelivery.JoinedOnce | store/src/decider.rs:35-63 | a player who has joined is refused a seat ever after, under any name |
| Redelivery.MarkedOnce | store/src/decider.rs:65-84 | a cell that has been marked is refused ever after, to anybody |
| Redelivery.TripleDelivery | server/src/adapters/redpanda.rs:49 | in any run, of the three deliveries of a join or placement that was accepted at the first, the later two can be left out with the same log |
| Redelivery.LateLeaveDoesNotMatter | store/src/decider.rs:101-114 | in any run, a leave after the end of the game can be left out with the same final state |
| Redelivery.DuplicatesDoNotMatter | server/src/adapters/redpanda.rs:45 | deleting any set of deliveries of already accepted joins and placements from any run leaves its log identical |
| Redelivery.LeaveChangesStateIffInGame | store/src/decider.rs:101-114 | a leave changes the state if and only if a game is on |
| Redelivery.LeaveRedeliverableIff | store/src/decider.rs:101-114 | a leave can be redelivered at every later time without changing the state if and only if it was handled outside the lobby |
| Redelivery.EffectivelyOnce | server/src/main.rs:191-196 | duplicates of accepted joins and placements, and leaves after the end, may be delivered or not in any combination with the same final state |
| Redelivery.RefusedMayBeAcceptedLater | server/src/main.rs:209-237 | a placement refused out of turn is accepted when it is delivered again after the opponent's move |
| Redelivery.PlacementAcceptedLaterIff | server/src/main.rs:218-222 | a placement, refused or not, is accepted after some further commands if and only if it is live: a cell of the board, and before the game any player, or in play a free cell and the player to move, or the other player when some other free cell can be marked without ending the game |
| Redelivery.JoinAcceptedLaterIff | server/src/main.rs:218-222 | a join is accepted after some further commands if and only if it is accepted now: its refusals are final |
| Replay.FoldForgetsBoard | store/src/decider.rs:122-167 | states that differ only in cells still to be placed fold to the same state |
| Replay.Split | store/src/decider.rs:35-63 | a started log begins with both joins and its start, and that opening folds to an empty board with the first joiner to move |
| Replay.ReplayAbsorbedIff | server/src/game_service.rs:75-83 | a producible log folded after any events drawn from it gives its own state if and only if those events hold no join, or the game has started and their first join is the log's |
| Replay.PrefixAbsorbedIff | server/src/game_service.rs:75-83 | a repeated prefix is absorbed if and only if the game has started or the prefix holds no join |
| Store.EventStore.constructor | store/src/store.rs:29-36 | a new store is empty and keeps its game id |
| Store.EventStore.Append | store/src/store.rs:71-78 | appends one envelope, numbered by the old length, with the store's game id and the command id, and returns it |
| Store.EventStore.AppendBatch | store/src/store.rs:83-99 | appends the events as one contiguous, consecutively numbered block and returns exactly that block |
| Store.BlocksStay | store/src/store.rs:71-99 | after any interleaving of calls the log is sequenced and each call's block lies where and as it was returned |
| Ports.Publisher.Publish | store/src/ports.rs:96-108 | a capturing publisher keeps every command and every envelope; a lossy one may drop any record by itself |
| Ports.ReachedMore | server/src/adapters/redpanda.rs:91-125 | sends that may lose records compose: one after the other they lose records of the concatenation |
| Ports.PartOfExtends | server/src/adapters/redpanda.rs:95-114 | with any records lost, what reached the broker stays a part of the log in order, each sequence number at most once |
| Ports.Broadcaster.Broadcast | server/src/adapters/renet.rs:18-25 | a broadcast appends the event to the stream of every connected client, or fails and appends it to none |
| Ports.Broadcaster.SendTo | server/src/adapters/renet.rs:27-35 | a message to one client appends to its stream only, and is lost if it is not connected |
| Ports.AckHandle.Ack | store/src/ports.rs:49-58 | an unused acknowledgement can be used once |
| Service.GameService.HandleCommand | server/src/game_service.rs:43-72 | the new log is the old one with the decided batch under the command's id; the new envelopes are published after the earlier ones, where a lossy publisher may lose any; the wrong game and a refusal change log, published events and streams not at all; success sends every client exactly the new events; a failed broadcast leaves the whole batch appended and a proper prefix of it sent; the log stays producible and an unlossy publisher has exactly the log |
| Service.GameService.CatchUp | server/src/game_service.rs:75-83 | the client, if connected, is sent the whole log, or a prefix of it on failure; nobody else is sent anything |
| Service.GameService.Publish | server/src/game_service.rs:86-88 | publishes a command and no event, or events and no command, with losses by a lossy publisher only; a command keeps the service's invariant |
| LogLanguage.StaleAppendIff | server/src/game_service.rs:51-61 | a batch decided in any other state and appended to a producible log keeps it producible if and only if the command, decided again on that log, gives the same batch |
| Service.SecondWriterLeavesLanguage | server/src/game_service.rs:51-61 | two joins decided on the same empty log but appended by two writers give a log outside the language |
| GameLoop.HandleConnection | server/src/main.rs:140-171 | a connect is caught up, published and then joined; a disconnect is published and left; also when records are lost, or the catch-up or the broadcast stops early |
| GameLoop.HandleConnections | server/src/main.rs:129-173 | the queued connects and disconnects act on log, publisher and client streams one after the other, with or without losses and failures |
| GameLoop.DrainClientCommands | server/src/main.rs:175-203 | the decodable messages are enveloped for this game, published and handled in order, the others are skipped; with or without losses and failures |
| GameLoop.AcknowledgesIff | server/src/main.rs:216-227 | a result is acknowledged if and only if the command was for another game, or was accepted on this log and broadcast |
| GameLoop.DrainBrokerCommands | server/src/main.rs:209-237 | each queued command is judged against the log its predecessors left; its own acknowledgement is sent if it is for another game or is accepted there and broadcast, and dropped otherwise |
| GameLoop.FailuresAreShared | server/src/game_service.rs:67-70 | whatever broadcasts fail in a run, all clients are sent the same part of the new events, in order |
| GameLoop.OnlyOursCount | server/src/game_service.rs:44-49 | commands for other games leave no trace in the log |
| GameLoop.Tick | server/src/main.rs:90-116 | one turn of the loop acts on log and streams as one run of commands: connections, then client messages, then the broker's commands for this game; it publishes the commands of the first two, and answers each of the third by whether it is for this game, is accepted on the log before it, and is broadcast |
| LoopFacts.DisconnectOutcome | server/src/main.rs:160-167 | a disconnect is a leave of that client: in play it abandons the game in the client's name, otherwise it is only recorded, and every client connected is told exactly that |
| LoopFacts.ConnectOutcome | server/src/main.rs:140-158 | a connecting client is sent the history and then its own join, the others the join only; it takes the first free seat with its name, the second one starting the game, and a stranger to a full game joins nothing |
| LoopFacts.ConnectFailuresAreShared | server/src/main.rs:140-171 | when catch-ups and broadcasts may fail, all clients that do not connect meanwhile are sent the same part of the new events, in order |
| LoopFacts.EnvelopesInOrder | server/src/main.rs:189-196 | the published envelopes are, in the order of the messages, those of the messages that decode, each with its own id, this game and the command that is handled |
| LoopFacts.PublishedIsHandled | server/src/main.rs:189-196 | what a turn publishes are, for this game, exactly the commands of connections and clients that it handles, and nothing for any other game |
| DeliveryInvariant.NextKeepsInv | server/src/adapters/redpanda.rs:175-280 | every step of the protocol keeps the invariant on offsets, channel order, coverage, tickets and commits |
| Delivery.ResultsAreTheServices | server/src/main.rs:216-227 | the protocol's results are exactly those that the service may return |
| DeliverySteps.DrainStep | server/src/main.rs:209-237 | the oldest queued command is handled whether or not its consumer still waits: for this game it is appended if accepted; the consumer that waits for this very ticket is answered, with an acknowledgement exactly for another game and for an accepted command that was broadcast |
| DeliverySteps.ClientCommandStep | server/src/main.rs:191-196 | a client's command is handled at once, and unless the broker loses it the same command goes to the end of the topic |
| DeliverySteps.TimeoutStep | server/src/adapters/redpanda.rs:257-264 | a timeout ends the wait and nothing else: the ticket stays queued, nothing is committed |
| DeliverySteps.RestartStep | server/src/main.rs:79-87 | a restart begins another game on an empty store with each group at its committed offset; only topic and committed offsets remain |
| DeliveryFacts.HandledMeans | server/src/main.rs:211-217 | every handled ticket was passed to `handle` at a step of the run, with the effect on the log and the result that `handle` has |
| DeliveryFacts.AtLeastOnce | server/src/adapters/redpanda.rs:194-280 | in every run, for any number of groups, every decodable message below a group's committed offset was passed to `handle` for that group, at a step that appended its events to the log exactly if it was for this game and accepted |
| DeliveryFacts.PublishedReachesEveryGroup | server/src/main.rs:191-196 | in every run a client's command that the broker kept has been handled again for each group whose committed offset has passed it, as that very command of that game |
| DeliveryFacts.CopiesChangeNothing | server/src/adapters/redpanda.rs:45 | in every run, until a restart, the broker's copies of an accepted join or placement leave the log as it is, and those of a leave given outside the lobby the state |
| DeliveryFacts.ChannelIsBounded | server/src/main.rs:86 | the channel never holds more than 256 tickets |
| DeliveryFacts.CommitSafety | server/src/adapters/redpanda.rs:222-264 | a nonzero committed offset is one past a message of the group whose own handling ended in success or the wrong game and was acknowledged while the consumer waited |
| DeliveryFacts.AcksAreOneShot | store/src/ports.rs:49-58 | no acknowledgement commits twice, no ticket is handled twice, and late or dropped acknowledgements commit nothing |
| DeliveryFacts.LateOrDroppedNeverCommits | server/src/adapters/redpanda.rs:242-264 | a ticket handled when its consumer no longer waits, or refused, or whose broadcast fails, is not committed at any point of the run |
| DeliveryFacts.CommittedNeverDecreases | server/src/adapters/redpanda.rs:244-246 | a group's committed offset never decreases, over timeouts, lost commits, rebalances and restarts |
| DeliveryFacts.CommittedIsNeverRefetched | server/src/adapters/redpanda.rs:194-196 | a fetch never goes below an offset committed earlier |
| DeliveryFacts.RefetchedIff | server/src/adapters/redpanda.rs:10-11 | in every stretch of a run a message already fetched is fetched again by its group if and only if a rebalance of the group or a restart finds its offset not committed and the group gets past it later |
| DeliveryFacts.CallsAreTheDeliveries | server/src/main.rs:209-217 | the commands recorded as handled are those read off the steps of the run: of clients, and at the head of the channel for this game, since the last restart |
| DeliveryFacts.LogIsARun | server/src/game_service.rs:51-61 | under every interleaving the log is what those commands produce on an empty store, in the order of handling, and so is producible |
| DeliveryFacts.BrokerCopyIsRefused | server/src/main.rs:209-237 | a broker copy of a join or placement accepted since the last restart is refused, changes nothing, and has its acknowledgement dropped |
| DeliveryFacts.DeliveryIsEffectivelyOnce | server/src/adapters/redpanda.rs:45 | in every run of the protocol the log is the same as without any chosen set of duplicate deliveries |
| DeliveryRuns.UndisturbedDelivery | server/src/adapters/redpanda.rs:216-246 | an undisturbed delivery to any group with an empty channel handles its message once, appends it if it is for this game and accepted, has a commit under way exactly if it is for another game or accepted and broadcast, and changes nothing else |
| DeliveryRuns.TimedOutDelivery | server/src/adapters/redpanda.rs:257-264 | a delivery whose consumer gives up first is handled all the same, with the same effect on the log, and commits nothing |
| DeliveryRuns.LeftoverIsAcknowledged | server/src/main.rs:218-222 | after a restart, a message left over from another game has no effect and its commit gets under way |
| DeliveryRuns.RedeliverableIff | server/src/adapters/redpanda.rs:10-11 | after every run a message already fetched is fetched again by its group in some continuation if and only if the group's committed offset has not passed it |
| DeliveryRuns.UnackedMayBePassedOver | server/src/adapters/redpanda.rs:247-264 | for any number of groups and any of them there is a run in which a refused, unacknowledged message lies below the group's committed offset |
| Replicas.StreamsOnlyGrow | server/src/adapters/renet.rs:18-35 | in every step but its own disconnect a client keeps its connection, and what it was sent is only extended |
| Replicas.RunKeepsInv | server/src/main.rs:139-158 | in every run each client's stream is the log since its connection, or that segment up to its catch-up and then the whole log |
| Replicas.ReplicaAgreesIff | server/src/main.rs:139-158 | a caught-up client's stream folds to the server's state exactly under the stated condition on its early segment, and equals the log when nothing was handled between connection and catch-up |
| Replicas.PromptRunsStayInStep | server/src/main.rs:139-158 | if every connection is caught up before anything further is handled, every caught-up client's stream is the log, whenever it connected |
| Replicas.GameLoopTakesSteps | server/src/main.rs:139-171 | the game loop's broadcasts, connections and disconnections are steps of the replica model |
| Replicas.LateCatchUpDiverges | server/src/main.rs:139-158 | two connections in one turn, after an earlier player has left, give the second client the wrong state |
| Client.Replica.ReceiveServerEvents | client/src/main.rs:213-229 | draining folds and records every decodable message in order; the state is always the fold of what was received |
| Client.Replica.UpdatePair | client/src/main.rs:232-255 | the pair is set once, from the two joins when exactly two have been received |
| Client.PairIsSeats | client/src/main.rs:232-255 | a pair read off any prefix of a producible log has the seats of the write model from that prefix on, two different players, and the names with which they joined |
| Client.ReadModelAgrees | store/src/state.rs:99-128 | at every placement the symbol of a pair read off any prefix is the one on the board, its name the joined one, and its opponent the next to move |
| Client.PairLookups | store/src/state.rs:107-128 | of any pair of different players only those two have a name, each has a symbol of its own, and taking the opponent twice leads back |
| Client.PairNeverWrongIff | client/src/main.rs:232-255 | after a late catch-up no drain order gives a wrong pair if and only if the early segment does not hold exactly one join |
| Client.ClientPairNeverWrongIff | client/src/main.rs:232-255 | so for every caught-up client of every run of connections, catch-ups and commands |
| Client.LatePairIsSwapped | client/src/main.rs:232-255 | two connections in one turn, after an earlier player has left, give the second client a pair with the players swapped |
| Simulation.SimulationHarness.FromLog | store/src/simulation.rs:24-28 | the harness stands at the end with the hydrated state |
| Simulation.SimulationHarness.FromLogUpTo | store/src/simulation.rs:31-39 | the harness stands at the index, clamped to the log, with the hydrated state |
| Simulation.SimulationHarness.StepForward | store/src/simulation.rs:59-66 | moves by one event unless exhausted, and the incremental state stays the recomputed one |
| Simulation.SimulationHarness.RewindTo | store/src/simulation.rs:69-72 | stands at the clamped index with the recomputed state |
| Simulation.SimulationHarness.RunToEnd | store/src/simulation.rs:90-93 | ends at the end of the log, in the hydrated state of all of it |
| Simulation.SimulationHarness.BranchWithCommand | store/src/simulation.rs:78-87 | a branch is refused as the decider refuses, or gives the events and the hydrated state of the log to the cursor with them; the harness is unchanged |
| Simulation.BranchIsProducibleIff | store/src/simulation.rs:78-87 | from any cursor in a producible log, an accepted branch gives a producible log if and only if the log up to the cursor is producible |
| Simulation.WinClaimSoundIff | store/src/decider.rs:86-98 | from any state, an announced winner has a line and the opponent none if and only if the opponent had none before |
| Simulation.CutWinIsMisnamed | store/src/simulation.rs:78-87 | at every cut after a winning placement, every accepted branch placement announces the loser as the winner |
| Simulation.CutBranchExample | store/src/simulation.rs:78-87 | one such cut: X holds the top row, and O is announced the winner |
| UserData.LittleEndianRoundTrip | client/src/main.rs:472 | little-endian coding in a fixed width is undone by decoding, for every number that fits |
| UserData.LittleEndianDigit | client/src/main.rs:472 | the byte at position i of the coding is the i-th digit to the base 256, the least significant first |
| UserData.BytesRoundTrip | server/src/main.rs:242 | every sequence of bytes is the coding of the number that it decodes to, so coding and decoding are inverse both ways |
| UserData.BuildUserData | client/src/main.rs:469-473 | the buffer filled in place decodes to the length and holds the whole name and zeros if the name fits, and otherwise as much of the name as there is room for |
| UserData.NameFromUserData | server/src/main.rs:241-245 | on any buffer the decoded name has the coded length if the buffer holds as many bytes after it, and is the rest of the buffer otherwise |
| UserData.NameRoundTrip | server/src/main.rs:241-245 | decoding what a client encoded gives its name if it fits, and otherwise its first bytes, as many as the buffer size minus 8 |

## Left out

- Rendering, hover, status text and mouse handling of the client: user interface.
- Sockets, the connection handshake and the maximum number of clients: each client is a reliable ordered stream, and any number of clients is allowed.
- The bincode and JSON encodings: a message decodes to a command or event, or does not.
- Event ids, timestamps and the freshness of command ids: no property needs them; command ids are given.
- UTF-8: names in events are strings, and the connection token is modelled on bytes before `from_utf8_lossy`. The fallback name `Player-<id>` is given with the connect event.
- The consumer loop is a step relation, not a Dafny loop: it never ends, and its steps interleave with the game loop's.
- Decoded events outside the board: applying one panics in the source, so such events are outside the type `Event`; producible logs have none.
- Receive errors of a consumer: they change nothing before the next attempt.
- Topic creation, partitions beyond the first, and several server processes with one group: one partition and one consumer per group.
- The type-state builder, error texts, logging, and the pacing of the loop.
