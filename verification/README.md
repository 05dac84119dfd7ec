# Verified model of solana-validator-failover

The tool moves a Solana validator's voting identity from an active node to a passive one. The active
node runs a client, the passive node a server; over one stream they agree on a plan, the client gives
its identity up and sends its tower file, the server takes the identity over, and either side may have
to undo what it did. This project models that protocol, the queries and waits it depends on, and the
pieces around it, and proves what holds in every run.

`dafny verify dfyconfig.toml` checks everything.

## How the protocol is modelled

- `Messages` holds the record both sides exchange. encoding/gob leaves zero leaves out of a message and
  leaves a receiver's field alone when a leaf is absent, so `Decode` is a leaf-wise merge. Instants are
  positive numbers, since `time.Now()` is never the zero time. Private keys are not sent.
- `Protocol` holds one transition function per program, `ClientStep` and `ServerStep`. Each takes a state
  and one action: what the environment answered at that point. `Step` adds the two directions of the
  stream and the environment's own events: the link drops and loses any unread suffix in either
  direction, a process dies, a validator votes. An event that is not enabled changes nothing, so a run is
  any sequence of events.
- `ClientProgram` and `ServerProgram` are the two programs as objects updated in place, with an early
  return at every failure. They are proved to compute, for every answer of the environment, exactly what
  the transition functions compute. `ClientScripts` and `ServerScripts` turn any answers into such an
  environment, and `ClientRuns` and `ServerRuns` conclude that a program that ends by itself in a run of
  the two nodes ends there as its object does. `Programs` states the main theorems for the objects.
- `Validators` is how the two programs come to be started, with the identities of `IdentityObjects`: two
  validators that pick opposite sides start the protocol in one of its initial states.
- Every failure is an action: a write fails (and may have delivered its frame), a read fails, a command
  fails (and may have taken effect), a file cannot be read or written (and may hold anything), a hook
  fails, the operator declines, a query fails. What went wrong is kept in `faults` as history.
- A program that ends, by returning or by a fatal log line, is at `CDone` or `SDone`. Its peer can still
  read the frames already sent; after those its read fails.
- There is one stream per server run.
- A set-identity command that reports success has taken effect. Nothing is assumed of one that fails:
  `ServerCommandLied` marks a server command that failed and took effect, and the theorems say where it
  matters.
- The tower hash is an arbitrary digest with its name in front, so it is never the empty string.

`ProtocolInvariant`, `ClientInvariant` and `ServerInvariant` prove which frames and messages exist at each
program point. `Flow` says where one action can lead; `Roles`, `Gates`, `Towers`, `Outcomes`, `Trails` and
`Samples` are invariants that follow its edges; `ProtocolRuns` puts them together over all runs. `Readings`
keeps the slots and instants a run's actions read as history beside the run, and follows them through the
messages. `Answers` says what single answers do. `Safety`, `Exclusion`, `Endings`, `Stranding`, `Progress`,
`Slots`, `Summaries` and `PlanPreview` are the theorems.

## What the proofs found

- Without tower sync the server does not wait for the client, so every matching pair of nodes has, outside
  a dry run, a fault-free run in which both are active at once. The configurations that exclude this are
  given exactly, in `Exclusion`.
- With tower sync, a server command that reports an error although it took effect leaves both nodes
  active until the server has re-asserted its passive identity, because the client is told to roll back
  first. Without a rollback to perform this cannot happen.
- With tower sync, a link that drops just before the client's command leaves both nodes passive, and nothing
  undoes it. `Stranding` says which faults can do this, and that one of them must happen at or after the
  server's go-ahead.
- The slot duration the client reports is right exactly when towers are synced and the server's end-slot
  query was answered. Without tower sync the server never learns the start slot, so the duration is the end
  slot; when the query fails, the end slot stays 0 and the unsigned duration wraps. `Slots` has a run of
  either kind for every matching pair.
- Without tower sync the server does not learn when the client's command began either: its summary
  subtracts the zero time from the end, and says that the client's command took no time. The client, which
  merges the verdict into its own message, holds every instant in both modes.
- The hooks of a rollback are told the roles of a failover that went through: on the client that this node is
  passive, after it has taken its identity back.
- The passive node deletes its tower file before its server is built, so a heartbeat interval that does not
  parse, or a port that is taken, costs the file. The error of a server that cannot listen is dropped.
- A vote-credit sample reports the difference to the epoch before in the list, while the rank compares the
  last entry's own two numbers; the two agree exactly when the entries do.
- The loop that confirms the switch in gossip does not stop at success: it always makes five attempts and
  its result is that of the last one. Its log line goes by flags that keep the latest complete answer, so
  it can log a confirmation together with an error.
- A node that leads absolute slot 0 is reported as off schedule, because 0 also means "none found".
- The project's own README says rollback hooks run before and after the command; the code has post hooks
  only. The model follows the code.

## Model

| member | source | states |
|---|---|---|
| `Messages.OverwriteIffCovered` | internal/failover/stream.go:53-61 | decoding a message acts as an overwrite exactly when the receiver holds no non-zero leaf that the sender lacks |
| `Messages.FreshDecode` | internal/failover/stream.go:29-51 | a new stream decodes exactly what was encoded, up to private keys |
| `Messages.EncodeDropsKeysOnly` | internal/identities/identity.go:93-103 | a message on the wire is the message, field by field, with both nodes' private keys gone and their key files and public keys kept |
| `Messages.DecodeKeepsBoth` | internal/failover/stream.go:53-61 | a decode loses nothing either side knew |
| `Messages.DecodeInventsNothing` | internal/failover/stream.go:53-61 | a decode is the least message that knows what both knew: the join of the knowledge order |
| `ClientProgram.ActiveNode.Start` | internal/failover/client.go:105-316 | for every answer of the environment, the imperative client ends, in the state and with the frames that feeding the same answers to the client's transition function gives |
| `ServerProgram.PassiveNode.HandleFailoverStream` | internal/failover/server.go:257-551 | for every answer of the environment, the imperative server ends, in the state and with the frames that feeding the same answers to the server's transition function gives |
| `ServerProgram.PassiveNode.ValidateActiveNode` | internal/failover/server.go:300-340 | the gossip lookup and its validation together: the server goes on if and only if some answering view shows the claimed IP with the claimed active key and the rollback flags are equal; a difference in the flags is blamed exactly when gossip agrees, a failed lookup exactly when no view shows the IP |
| `ClientScripts.AnswersAreAScript` | internal/failover/client.go:105-316 | a client that gets to its end on any list of answers gets there, with the same state and the same frames, as the program does in the environment those answers make up |
| `ServerScripts.AnswersAreAScript` | internal/failover/server.go:257-551 | the same for the server, whose refusals and skipped steps pass over the answers they have no use for |
| `ClientRuns.ClientInRun` | internal/failover/client.go:105-316 | in every run that does not kill it, whatever its validator votes, the client is the client alone on the answers it got with the tower file it found, and what it wrote is what the link carried |
| `ClientRuns.StartInRun` | internal/failover/client.go:105-316 | in every run in which the client ends by itself, `Start` on a fresh object ends with the run's outcome, message, identities, role and frames |
| `ServerRuns.ServerInRun` | internal/failover/server.go:257-551 | the same for the server; only once it has run its command can its validator's votes make a difference |
| `ServerRuns.HandleInRun` | internal/failover/server.go:257-551 | in every run in which the server ends by itself, `HandleFailoverStream` on a fresh object ends with the run's outcome, message, identities, role and frames, and with its tower file if its validator does not vote |
| `Programs.Both` | internal/failover/client.go:105-316 | the theorems about runs, for the two objects: with tower sync both end active only with rollback on both nodes and a non-empty to-active command, a dry run leaves the roles alone, matching nodes that meet no fault swap them; an object that has completed holds the instants and the start slot as they were read, and a completed server exactly the one sample its monitoring starts from |
| `Answers.ClientFailsIff` | internal/failover/client.go:105-316 | one step of the client on any answer: a fault is recorded exactly when the answer is a failure, a failure ends the program, and a frame goes out exactly when the write worked or delivered all the same |
| `Answers.ClientCommandRoles` | internal/failover/client.go:214-294 | the client's two commands change its role exactly when they worked or took effect all the same, outside a dry run, and the rollback only when its command is not empty |
| `Answers.ServerFailsIff` | internal/failover/server.go:257-551 | the same for the server, with gossip's answer compared to the claimed address and active key; a failure is refused, ends the program or starts the way to its end |
| `Answers.ServerCommandRoles` | internal/failover/server.go:500-529 | the same for the server's two commands; a command that lies is recorded as one |
| `Answers.TowerIsChecked` | internal/failover/server.go:446-470 | whatever frame arrives, the server goes on to write its bytes if and only if they have the hash that came with them |
| `Streams.Stream.Encode` | internal/failover/stream.go:43-51 | one write of the message without private keys; a failed write may still have delivered it |
| `Streams.Stream.Decode` | internal/failover/stream.go:53-61 | the held message becomes its merge with what arrived, or stays |
| `Streams.Stream.SetTower` | internal/failover/node_info.go:28-47 | bytes and hash are set together, the hash is that of the bytes |
| `Streams.Stream.PullSample` | internal/failover/stream.go:379-417 | a sample with the queried rank and the credits since the epoch before, in wrapping arithmetic, is appended for the active identity; a failed query changes nothing |
| `VoteRank.SampleIsRankedByIff` | internal/failover/stream.go:398-409 | a sample reports the credits the ranking compared if and only if the last epoch's entry agrees with the entry before it |
| `Streams.Stream.PullSamples` | internal/failover/stream.go:421-462 | exactly the answered samples are appended, in order; only a single failed sample is an error |
| `Streams.Stream.MonitorCredits` | internal/failover/server.go:570-590 | the monitoring reports the rank from before the failover against the last one answered, and nothing exactly when no query was answered |
| `Streams.Stream.RankGained` | internal/failover/stream.go:465-476 | first rank minus last rank, or nothing with fewer than two samples |
| `ProtocolRuns.StepKeepsGood` | internal/failover/server.go:257-548 | every event of either program or the environment keeps the five invariants: frames and messages, roles, gates, towers, endings |
| `ProtocolRuns.ReachableGood` | internal/failover/server.go:257-548 | they hold in every reachable state of every run |
| `Safety.MutualExclusion` | internal/failover/server.go:435-529 | with tower sync both nodes are active together only if a server command that reported an error took effect, both nodes roll back and a to-active command is configured |
| `Exclusion.ExclusiveIff` | internal/failover/client.go:231-263 | provided a failing server command leaves its identity alone, the nodes are never active together if and only if tower sync is on, or it is a dry run, or the configurations do not match |
| `Exclusion.AlwaysExclusiveIff` | internal/failover/server.go:505-529 | whatever a failing command does: if and only if dry run, no match, or tower sync with no rollback to perform |
| `Exclusion.SkippingBreaksExclusion` | internal/failover/server.go:441-445 | every matching pair without tower sync has, outside a dry run, a fault-free run with both nodes active |
| `Exclusion.LyingBreaksExclusion` | internal/failover/server.go:509-515 | every matching pair with tower sync and rollback has a run with both nodes active after a failed command took effect |
| `Exclusion.ReachSwitch` | internal/failover/server.go:257-500 | every matching pair has a fault-free run up to the server's switch |
| `Safety.RollbackOnlyOnSignal` | internal/failover/client.go:281-302 | if the client takes its identity back, the server's command failed, the server never activated and both nodes have rollback enabled |
| `Safety.DeadBranchesUnreachable` | internal/failover/client.go:296-307 | the client's "rollback disabled" and "failed to complete" branches and the server's hash mismatch are never taken |
| `Safety.DryRunChangesNothing` | internal/utils/utils.go:168-173 | in a dry run both identities stay as they were, no rollback is ever called for, and the client goes by the server's flag |
| `Safety.TowerHandedOver` | internal/failover/client.go:219-247 | when the server is about to switch, the client is passive and the server's tower is the client's |
| `Safety.TowerFrozenWhilePassive` | internal/failover/client.go:219-229 | a passive client's tower does not change, so the tower handed over has its last vote |
| `Safety.ActivationUsesHandedTower` | internal/failover/server.go:474-506 | every successful activation starts from the client's last tower, with the client passive |
| `Safety.GateSafety` | internal/failover/server.go:280-439 | once the client has run its command, versions matched, gossip had answered with its IP and active key, rollback flags were equal, the operator had agreed to a plan built from both configurations, the tower file was there, all pre hooks that must succeed had, on both nodes, and the go-ahead it read holds exactly the one credit sample the server had taken, under the client's active public key |
| `Safety.SampleTravels` | internal/failover/server.go:373-384 | in every run the go-ahead, the verdict and the message a completed server ends with hold that one sample and nothing else |
| `Samples.SampleIsTheAnswer` | internal/failover/stream.go:379-417 | the sample on record is the answer to the query before the go-ahead, and no later event changes it |
| `Safety.GossipGate` | internal/failover/server.go:300-340 | in every run the server goes on from its gossip check if and only if the answer is the client's own address and active key and the rollback flags agree; each refusal has its own cause |
| `Safety.ReplyAgrees` | internal/failover/client.go:141-175 | the reply leaves the client with exactly the server's message, the mode is the server's, and a refusal is reported in the server's words; the identities it held are now the message's, without private keys |
| `Safety.VerdictAgrees` | internal/failover/client.go:262-304 | with tower sync the verdict leaves the client with exactly the server's message, without it with its flags |
| `Safety.ServerDecodeAgrees` | internal/failover/server.go:446-456 | the request and the tower message leave the server with exactly the client's message, and the hash matches; the tower message leaves its identities without private keys |
| `Endings.Classification` | internal/failover/client.go:239-302 | in both tower modes, when nothing is lost, configuration and faults decide the ending: the client kept its identity (and with tower sync so did the server) if a check failed or the nodes do not match, swapped if the server's command worked, undone if it failed with rollback on, stranded if it failed with rollback off |
| `Stranding.EndingTable` | internal/failover/server.go:441-551 | in every finished run, whatever was lost or killed: the client's ending and the server's each say whether that node is active, which pairs of endings can meet, and that a client that was refused names the server's reason |
| `Stranding.BothPassiveNeedsFault` | internal/failover/client.go:214-280 | a finished run that leaves both nodes passive: the client has read the go-ahead, and at or after the event by which the server sent it one of the stranding faults happened; without tower sync these are a failed reply, a death and the server's failed command only |
| `Stranding.LinkDropStrands` | internal/failover/client.go:214-260 | every matching pair with tower sync has such a run whose only fault is a link that drops just before the client's command |
| `Trails.ReachableTrail` | internal/failover/server.go:441-551 | in every reachable state each fault of the hand-over shows in the program point it ended, and each frame in the program point it was sent from |
| `Endings.RecoveryRestoresRoles` | internal/failover/server.go:507-515 | if only the server's command fails, with rollback on and a to-active command, both roles are restored |
| `Endings.FaultFreeSwaps` | internal/failover/server.go:544-548 | in both tower modes, matching nodes that meet no fault swap their roles |
| `Endings.SwapIsReachable` | internal/failover/server.go:257-548 | such a run exists for every matching pair |
| `Progress.RunsAreBounded` | internal/failover/client.go:105-316 | whatever the environment does, the two programs together take at most 28 steps plus one per pre hook |
| `Progress.NeverBothWaiting` | internal/failover/client.go:174-175 | the two nodes never wait for each other, nor one for a node that has ended |
| `Progress.DeadlockFree` | internal/failover/server.go:435-450 | until both have ended, one of the programs can take a step, in both tower modes |
| `Progress.CanFinish` | internal/failover/server.go:435-548 | from every reachable state both programs can be brought to their ends without a new fault |
| `Readings.RunReadings` | internal/failover/stream.go:342-376 | in every run, at every program point of both nodes and in every frame, the message holds exactly the slots and instants that the run's own actions read, and zero where nothing was read |
| `Summaries.ReadingsStay` | internal/failover/stream.go:342-376 | nothing that happens later changes what was read before |
| `Summaries.VerdictTimes` | internal/failover/server.go:497-548 | every verdict of success holds the instants of the server's command and tower write, and with tower sync those of the client's command and tower read; without it the server never learns them |
| `Summaries.ServerTimes` | internal/failover/server.go:497-548 | the same for the message a completed server ends with, and for its two slots |
| `Summaries.ClientTimes` | internal/failover/client.go:214-262 | a completed client holds all of them in both modes: merging the verdict in loses nothing of its own |
| `Summaries.SummaryTimes` | internal/failover/stream.go:322-341 | the three durations of the summary are those of the two commands and the tower hand-over; without tower sync the client's command and the hand-over are reported as taking no time |
| `Summaries.TotalDurationIff` | internal/failover/stream.go:311-314 | the total duration is the one from the start of the client's command to the end of the server's if and only if towers are synced, or that is longer than a duration can be |
| `Slots.VerdictReports` | internal/failover/server.go:533-542 | in both modes, what the verdict says of the slots: the start slot the client waited for or zero, and the server's answer, the start slot if that is later, or zero if the query failed |
| `Slots.DurationIff` | internal/failover/stream.go:317-319 | in both modes: a client that has its start slot is told the slots from there to the end slot if and only if towers are synced and the end-slot query succeeded |
| `Slots.SlotAccounting` | internal/failover/stream.go:317-319 | with tower sync: the start slot lies after the slot first observed, an answered query gives an end slot not before it, and a failed one makes the unsigned duration wrap |
| `Slots.FailedQueryWraps` | internal/failover/server.go:533-542 | every matching pair with tower sync has a run that swaps the roles, whose only fault is the failed query, with the wrapped duration |
| `Slots.SkippedSyncMisreports` | internal/failover/stream.go:317-319 | every matching pair without tower sync has a fault-free run that swaps the roles and reports the end slot as the duration |
| `PlanPreview.ClientHookEnvMap` | internal/failover/client.go:442-479 | the template data read back from the client's string map describes the node itself and its peer, field by field, with this node active and its peer passive before the failover and the reverse after it; it is what the plan builder computes |
| `PlanPreview.ServerHookEnvMap` | internal/failover/server.go:761-798 | the same for the server, with the roles the other way round |
| `PlanPreview.ClientPreHooksAsPlanned` | internal/failover/stream.go:186-219 | in every run, the data of the client's pre hooks is what the operator saw, if and only if the RPC address in its info is the one it runs with |
| `PlanPreview.ClientPostHooksAsPlanned` | internal/failover/stream.go:186-219 | the same for its post hooks, on the message the verdict left |
| `PlanPreview.ServerRunsAsPlanned` | internal/failover/stream.go:222-255 | the same for the server's hooks |
| `PlanPreview.ClientPreHooksTold` | internal/failover/client.go:442-457 | in every run the client's pre hooks are told of both nodes as configured, that this node is active, as it is, and its peer passive, as it is with tower sync |
| `PlanPreview.ClientPostHooksTold` | internal/failover/client.go:442-457 | after a verdict of success its post hooks are told that this node is passive and its peer active, as they are outside a dry run |
| `PlanPreview.ServerPreHooksTold` | internal/failover/server.go:761-776 | the server's pre hooks are told that this node is passive and its peer active, as they are |
| `PlanPreview.ServerPostHooksTold` | internal/failover/server.go:761-776 | its post hooks are told that this node is active, as it is outside a dry run |
| `PlanPreview.RollbackHooksToldIff` | internal/failover/client.go:281-302 | the hooks of a rollback are told the roles of a failover that went through, which is right exactly when there was no command to run and, on the server, the failed switch had taken effect |
| `Gossip.FindByIP` | internal/solana/client.go:316-334 | one pass finds the first exact entry, or the first entry at the IP |
| `Gossip.NodeFromIP` | internal/solana/client.go:275-312 | an exact entry if a view that answered has one, the local view first; else the first entry at the IP; else nothing |
| `Gossip.ActiveNodeGate` | internal/failover/server.go:300-321 | composed with the validation, the gate passes if and only if some answering view has the claimed IP with the claimed key |
| `VoteRank.RankCounts` | internal/solana/client.go:352-370 | a rank is one more than the accounts with more credits and the earlier ones with as many |
| `VoteRank.RankOrders` | internal/solana/client.go:352-370 | ranks order the accounts strictly |
| `VoteRank.PositionIsRank` | internal/solana/client.go:372-376 | in a stably sorted list every account stands at its rank |
| `VoteRank.StableOrderIsUnique` | internal/solana/client.go:352-370 | there is one stable order, whatever the library's algorithm |
| `VoteRank.SortByCredits` | internal/solana/client.go:352-370 | the in-place sort arranges the given accounts in that order |
| `VoteRank.RankedVoteAccount` | internal/solana/client.go:338-380 | of a node's accounts the best-ranked one and its rank; nothing exactly when the node has none |
| `LeaderSlots.TimeToNextLeaderSlot` | internal/solana/client.go:392-462 | the answer in terms of the schedule, in wrapping arithmetic |
| `LeaderSlots.TimeIsToNearest` | internal/solana/client.go:423-462 | when nothing wraps and the slot is not 0: the time to the nearest leader slot, or none is left |
| `LeaderSlots.SentinelIffSlotZero` | internal/solana/client.go:443-447 | "not on schedule" is wrong exactly when the node leads absolute slot 0 now |
| `LeaderSlots.WaitMinTimeToLeaderSlot` | internal/failover/client.go:360-439 | the wait ends at the first query that clears it or at the eleventh error, consecutive or not |
| `LeaderSlots.LeaderWaitEnds` | internal/failover/client.go:384-425 | with a fixed schedule and an advancing slot it lasts at most one query per slot up to the last leader slot, and ten errors |
| `LeaderSlots.LeaderWindowKept` | internal/failover/client.go:412-425 | a query clears the wait if and only if every leader slot left is at least the minimum away |
| `LeaderSlots.WaitForGap` | internal/failover/client.go:384-425 | the wait over its own queries: when it lets the failover go on, every leader slot left is at least the minimum away, and no earlier answer said so; it gives up exactly at the eleventh failed query |
| `LeaderSlots.WaitUntilStartOfNextSlot` | internal/failover/client.go:323-357 | the first slot after the one first observed |
| `GossipConfirmation.ConfirmGossipNodes` | internal/failover/server.go:629-746 | always all five attempts; no error if and only if the last one saw both switched; the log line goes by the latest complete answer |
| `GossipConfirmation.TotalPause` | internal/failover/server.go:643-646 | 2, 4, 8 and 16 seconds of pauses, less those after attempts that confirm |
| `GossipConfirmation.LogCanContradictError` | internal/failover/server.go:736-745 | such a run |
| `Hooks.RunPre` | internal/hooks/hooks.go:352-378 | an error exactly when a hook that must succeed fails; the hooks run are a prefix, in order |
| `Hooks.RunPost` | internal/hooks/hooks.go:381-398 | every hook runs, whatever the others did |
| `Hooks.RunRollback` | internal/failover/rollback.go:28-62 | command first unless empty or dry run, then every post hook; the error is the command's only |
| `IdentityObjects.Identity.FromFile` | internal/identities/identity.go:23-48 | the public key string is the key's own |
| `IdentityObjects.Identity.FromPubkey` | internal/identities/identity.go:52-66 | no file and no key, the public key as given |
| `IdentityObjects.Identity.GobEncode` | internal/identities/identity.go:93-103 | file name and public key, never the key |
| `IdentityObjects.Identity.GobDecode` | internal/identities/identity.go:107-117 | all fields overwritten in place, the key gone |
| `IdentityObjects.SharedIdentities.DecodeOwn` | internal/identities/identity.go:107-117 | decoding one's own identities through the shared pointer keeps public keys and file names |
| `IdentityObjects.RoundTripKeepsPubKeyIff` | internal/identities/identity.go:76-81 | the public key survives exactly when the string agrees with the key |
| `Semver.ParseSemver` | internal/updater/updater.go:116-128 | the array holds the three components |
| `Semver.NumbersRead` | internal/updater/updater.go:116-128 | a part of a version that is a number counts as that number, or as the nearest 64-bit one |
| `Semver.OthersReadAsZero` | internal/updater/updater.go:116-128 | any other part counts as 0 |
| `Semver.IsNewerVersion` | internal/updater/updater.go:102-114 | lexicographic on the triples |
| `Semver.StrictWeakOrder` | internal/updater/updater.go:100-114 | irreflexive, transitive, and incomparable means the same triple |
| `Semver.PrintedTripleParses` | internal/updater/updater.go:116-128 | a printed major.minor.patch, with or without a dash suffix, parses to the triple |
| `Semver.PrintedOrder` | internal/updater/updater.go:100-114 | of two printed versions the one with the larger major number is newer, then the larger minor, then the larger patch number, whatever their suffixes |
| `Validators.Validator.ConfigureRollback` | internal/validator/validator.go:484-526 | an empty template stands for the ordinary command, so an empty rollback command needs an empty ordinary one or template output |
| `Validators.Validator.Failover` | internal/validator/validator.go:211-250 | gossip decides the side and the flag turns rollback on, never off; when each side starts, what its node info says, field by field, and that a server that then fails to start has its tower file deleted already |
| `Validators.StartBoth` | internal/validator/validator.go:725-882 | an active and a passive validator start exactly when each can, and then make up a valid configuration in an initial state of the protocol: each info, command and hook list is its own validator's, the mode the server's. In its runs the server checks gossip for the active validator's address and active key; provided a failing server command leaves its identity alone, the two are never active together if and only if the server syncs towers, or it is a dry run, or the nodes do not match |
| `IdentityObjects.SharedIdentities.NewFromConfig` | internal/identities/identities.go:17-62 | identities are built exactly when both load and their public keys differ; each agrees with its key |

## Left out

- QUIC transport, TLS, certificates, ALPN and the message-type byte: the stream is a pair of queues that may be cut.
- gob's byte format, base58, ed25519 and xxh3: a message on the wire is the message without keys, keys and hashes are opaque.
- Spinners, prompts, colours, plan and summary rendering, and Go template execution: the data handed to them is modelled.
- Processes, files and RPC calls: their answers are parameters of the methods and actions of the transition functions.
- More than one stream on a server, and real time: sleeps are counted in the gossip confirmation and ignored elsewhere.
- Post hooks, rollback hooks and the gossip confirmation inside the transition functions: they come after the last message and change no role; they are modelled on their own in Hooks and GossipConfirmation.
- Vote-credit monitoring after the switch: the loop and its report are modelled on the stream a completed server ends with, not as a step of the transition function.
- The detail the server adds to each refusal text: one text per reason.
- Trimming of hook environment values and the configured extra variables: they do not reach the template data.
- A rejected public key at the start of the leader wait, and wake-up times of the waits.
- Configuration files, which strings parse as durations, peer selection, the health wait, logging and the command line: their results are parameters of `Validators`.
- ClientRuns.StartInRun: runs in which the client is killed are left out, because a killed program has no end of its own; ClientRuns.ClientInRun likewise.
- ServerRuns.HandleInRun: the same for the server; ServerRuns.ServerInRun likewise.
- Summaries.SummaryTimes: of the summary's data only times and slots; the tower size and the two node infos are left out.
- Trails.ReachableTrail: the faults of the checks before the go-ahead are not traced to an ending, because they cannot strand the pair.
- LeaderSlots.LeaderWaitEnds: one epoch's schedule; a schedule that changes at an epoch boundary is not modelled.
- Safety.VerdictAgrees: without tower sync only the flags are stated, because the two messages differ by what the client never sends.
- Gossip.NodeFromIP: the lookups by IP alone and by public key alone follow the same pattern and are not modelled.
