# Undermoon in Dafny

Undermoon is a Redis cluster system. Its broker keeps the metadata of all clusters:
which master holds which of the 16384 hash slots, which slot migrations are under way,
which proxies serve a cluster and which of them have failed. Proxies print slot tables
from this metadata, hold back commands while slots are switched over, and move keys
between nodes; they speak the Redis serialization protocol.

This project models these parts and proves what they are for.

| module | what it models |
|---|---|
| `Ranges` | slot range lists: sorting, merging, counting, the membership table |
| `Shares` | the even division of 16384 slots over m masters and its arithmetic |
| `ClusterState` | the slot metadata of one cluster and its invariant `SlotsInv` |
| `Planning`, `ScaleOut`, `ScaleDown` | the two migration planners |
| `Commit`, `Failover` | committing a migration; taking over a failed proxy's masters |
| `LimitedView` | the view in which only some stored migrations run |
| `Nodes`, `SlotTable`, `ProxyTable` | from chunks to nodes to the table a proxy prints |
| `Allocator` | pairing free proxies of different hosts into chunks |
| `ChunkOps`, `Metadata`, `MetaStore` | the store and all its operations |
| `Blocking` | the blocking queue as a transition system |
| `Resp`, `RespCodec`, `Packet` | the protocol codec and the multi-reply decoder |
| `Transfer` | moving keys with SCAN, DUMP, RESTORE and DEL as a transition system |

How the model stands to the code:

- A chunk's two parts are stored flat: part `p` of chunk `c` is master `2 * c + p`, and a
  migration names its ends by master. The chunks keep roles, proxies, hosts and nodes.
- The invariant `SlotsInv` says: range lists are canonical; every slot of 0..16383 is in
  exactly one stable range or in exactly one migration; migrating and importing halves
  pair up and sit where their meta says; epochs do not exceed the global epoch; and with
  all imports counted, the first `target` masters hold exactly their even shares.
- Maps with arbitrary iteration order are iterated in arbitrary order here too, so results
  hold for every order and every tie-break.
- Epochs, counts and terms are unbounded numbers.
- `Blocking` interleaves threads at every access to a shared cell; loads and swaps of the
  packed cell are separate steps.
- `Transfer` takes two things as given: a SCAN at a cursor returns every key resident
  there, and clients do not write the source after the switch. Expiry at the destination
  counts as a removal by a client. Clients may write and remove keys at the destination at
  any moment; the code lets a command that may delete a key wait until the key is
  synchronized, and `Transfer.RemovalLasts` and `Transfer.SyncedRemovalLasts` say why and
  when that is enough.
- The number parser of the wire protocol comes from a library: an optional sign, at least
  one digit, within 64 bits; everything else is a protocol error.

Four things the code does that differ from what its comments, tests or documents suggest:

- A new cluster with more than 16384 masters gets a reversed range that is turned round,
  so slot 16384 appears (`ChunkOps.CreateSlots`).
- Scaling down pushes a range twice when a destination is already full while another one
  still lacks slots; `Shares.ScaleDownSafe` is the exact condition on the two master
  counts, and 184 to 182 masters violates it (`ScaleDown.PlanScaleDown`).
- A proxy that holds both masters of its chunk loses one page of its table when its two
  nodes share an address. The table misses slots if and only if that page shows something
  (`ProxyTable.Forgets`); `ProxyTable.ForgettingExample` is a store where slot 0 is missing.
- A replacement for a failed proxy may come from the host of the chunk's other half, so a
  chunk can end up on one host. It stays on two if that host is not a best one, in
  particular if any candidate shares no chunk with the failed host, and ends up on one if
  that host is the only best one; ties are broken by the order of a hash map
  (`MetaStore.MetaStore.ReplaceFailedProxy`). `MetaStore.SharedHostExample` is a store
  where it happens.

`dafny verify dfyconfig.toml` verifies all files together.

## Model

| member | source | states |
|---|---|---|
| `Ranges.RangeVec.Compact` | src/common/cluster.rs:200-228 | in place, the list becomes the canonical list of its slots |
| `Ranges.RangeVec.SwapReversed` | src/common/cluster.rs:202-206 | reversed ranges are turned round, all others stay |
| `Ranges.RangeVec.MergeNeighbours` | src/common/cluster.rs:212-227 | merging a sorted list with two indices leaves strictly increasing ranges with gaps and the same slots |
| `Ranges.RangeVec.MergeAnother` | src/common/cluster.rs:165-168 | the other list is added and the result is canonical |
| `Ranges.CompactedCover` | src/common/cluster.rs:200-228 | compacting keeps the slot set, each slot once |
| `Ranges.CanonicalUnique` | src/common/cluster.rs:200-228 | two canonical lists with equal slot sets are equal |
| `Ranges.CompactedCanonical` | src/common/cluster.rs:200-228 | compacting is idempotent |
| `Ranges.SizeIsCardinality` | src/common/cluster.rs:238-243 | get_slots_num of a canonical list is the number of its slots |
| `Ranges.BuildRangeMap` | src/common/cluster.rs:246-297 | membership in the table equals membership in the set for lists inside 0..16383, and the table is empty otherwise |
| `Shares.ShareTotal` | src/broker/migrate.rs:57-61 | the shares of m masters add up to 16384 |
| `Shares.ShareIsCeiling` | src/broker/migrate.rs:57-61 | share i is (16384 - i) / m rounded up |
| `Shares.ShareAntitone` | src/broker/migrate.rs:336-338 | with more masters every share shrinks or stays |
| `Shares.ScaleDownSafeExact` | src/broker/migrate.rs:371-403 | the quotient and remainder test holds if and only if no destination is full before one that lacks slots |
| `Shares.ScaleDownSafeByProduct` | src/broker/migrate.rs:371-403 | an inequality between products of the master counts is enough for a safe scale-down |
| `Shares.ScaleDownUnsafeExample` | src/broker/migrate.rs:371-403 | going from 184 to 182 masters is not safe |
| `ClusterState.SameOwnersPartition` | src/broker/migrate.rs:232-284 | states with equal owners of every slot are partitions together |
| `ClusterState.RestShares` | src/broker/utils.rs:47-97 | with no migration stored, master i holds exactly its share, and slot-bearing masters are exactly the first `target` |
| `Planning.AssignDstSlots` | src/broker/migrate.rs:232-271 | the loop stores every task at its source and its destination and compacts |
| `Planning.CompactSlots` | src/broker/migrate.rs:273-284 | the loop compacts every list of the cluster |
| `Planning.AssignOwners` | src/broker/migrate.rs:232-271 | storing a plan that conserves slots changes no owner |
| `Planning.AssignTwins` | src/broker/migrate.rs:232-271 | stored halves pair up and are exactly the planned tasks |
| `Planning.PlanStarts` | src/broker/migrate.rs:232-284 | a sound plan leads from one invariant state to another, with the same owners, the new epoch and the new balance target |
| `ScaleOut.CutBack` | src/broker/migrate.rs:94-113 | taking slots off the back of a range list conserves them and leaves canonical pieces of exact size |
| `ScaleOut.TakePiece` | src/broker/migrate.rs:71-113 | one round of the inner loop keeps counts and slots in step, without underflow |
| `ScaleOut.DrainSource` | src/broker/migrate.rs:70-138 | a source is taken down to exactly its share |
| `ScaleOut.DrainAll` | src/broker/migrate.rs:50-144 | all sources are drained and every destination is filled to exactly its share |
| `ScaleOut.RestIsPlannable` | src/broker/migrate.rs:50-70 | the invariant at rest gives all the planner needs |
| `ScaleOut.DrainedIsGoodPlan` | src/broker/migrate.rs:50-144 | the tasks are non-empty, canonical, each from one source, and conserve slots |
| `ScaleOut.DrainedIsBalanced` | src/broker/migrate.rs:50-144 | stable plus planned slots of every master equal its share |
| `ScaleOut.PlanScaleOut` | src/broker/migrate.rs:50-144 | the whole planner keeps the invariant: same owners, one new epoch, balanced target, and sources keep their lowest slots |
| `ScaleDown.CutFront` | src/broker/migrate.rs:386-403 | taking slots off the front of a range list conserves them and leaves exact sizes |
| `ScaleDown.TakePiece` | src/broker/migrate.rs:362-403 | one round of the loop, including the one in which a full destination gets a range twice |
| `ScaleDown.DrainSource` | src/broker/migrate.rs:360-430 | a removed source ends up with no slots |
| `ScaleDown.DrainAll` | src/broker/migrate.rs:329-435 | all removed sources are empty when they are set to none, and destinations have exactly their shares unless a range was pushed twice |
| `ScaleDown.DrainedIsGoodPlan` | src/broker/migrate.rs:329-435 | without a double push the tasks conserve every slot |
| `ScaleDown.DrainedIsBroken` | src/broker/migrate.rs:371-403 | with a double push some slot is in two places |
| `ScaleDown.PlanScaleDown` | src/broker/migrate.rs:329-435 | the planner keeps the invariant if and only if the test on old and new master counts holds |
| `Commit.StoredOnce` | src/broker/migrate.rs:459-477 | a stored migration is determined by its ranges and stored once |
| `Commit.StoredTask` | src/broker/store.rs:46-51 | each half of a stored migration occurs exactly once, where its meta says |
| `Commit.CommitMovesOwner` | src/broker/migrate.rs:503-551 | the committed slots move from source to destination, no other slot does |
| `Commit.CommitFinalSize` | src/broker/migrate.rs:503-551 | what every master will hold in the end does not change, whatever the commit order |
| `Commit.CommitKeepsInv` | src/broker/migrate.rs:503-551 | a commit keeps the invariant and the balance target |
| `Commit.FindHalf` | src/broker/migrate.rs:455-501 | the search finds a part with a matching half, or there is none |
| `Commit.CommitMigration` | src/broker/migrate.rs:437-561 | a commit succeeds exactly for a stored migration with these ranges and this epoch, and then removes both halves and merges the slots; otherwise nothing changes |
| `Failover.TakeoverMaster` | src/broker/update.rs:839-914 | after it no node of the chunk on the failed proxy is a master, and nothing changes if and only if that held before; all migrations touching an end of the failed part's migrations get the new epoch |
| `Failover.PeerRoleIsOff` | src/broker/update.rs:876-892 | of the three roles exactly the chosen one leaves the failed proxy without a master |
| `Failover.RestampKeepsInv` | src/broker/update.rs:896-911 | re-stamping keeps owners, balance and the pairing of halves |
| `Failover.TakeoverKeepsInv` | src/broker/update.rs:839-914 | a takeover keeps the invariant, and both halves of every migration of the failed part carry the new epoch |
| `Failover.StaleCommitFindsNothing` | src/broker/migrate.rs:459-477 | no stored migration answers to the epoch a re-stamped migration had before |
| `Failover.CommittedIsGone` | src/broker/migrate.rs:511-551 | a committed migration is not found again |
| `LimitedView.ChosenLimited` | src/broker/store.rs:240-279 | at most `migration_limit` migrations run, at most one out of each part |
| `LimitedView.ChosenMaximal` | src/broker/store.rs:240-279 | below the limit, every part with a stored outgoing migration has one running |
| `LimitedView.CommitKeepsRunning` | src/broker/store.rs:206-214 | committing any stored migration leaves all other running ones running, for every limit |
| `LimitedView.FailoverKeepsRunning` | src/broker/store.rs:206-214 | a failover changes epochs of running migrations, never which ones run |
| `LimitedView.ViewIsConsistent` | src/broker/store.rs:215-293 | the view keeps every slot's owner and the partition, pairs halves, and stores exactly the running migrations |
| `LimitedView.RunsTerminate` | src/broker/store.rs:206-293 | over every run of commits and failovers each commit uses up one migration, and while any is stored one is running |
| `LimitedView.RunsKeepRunning` | src/broker/store.rs:206-214 | over every run a running migration runs until it is itself committed |
| `LimitedView.LimitMigration` | src/broker/store.rs:215-293 | the nested loops with the counter map build exactly that view |
| `Nodes.ToCluster` | src/broker/query.rs:162-263 | the loops produce the four nodes of every chunk with slots placed by role |
| `Nodes.PlacedWhereNamed` | src/broker/store.rs:54-121 | the addresses in a migration's tag name the master node and proxy its ranges are placed on |
| `Nodes.TagsAgree` | src/broker/store.rs:54-121 | the masters of both ends of every stored migration are told the same addresses, which are their own, and the migration's epoch |
| `Nodes.TagIsStored` | src/broker/store.rs:54-121 | every tag on a node belongs to a stored migration with these ranges and this epoch, the one a commit accepts |
| `Nodes.OffIsVacated` | src/broker/query.rs:162-263 | a chunk without masters on a proxy has no slots there; all its slot ranges are on masters of the other proxy |
| `SlotTable.PartsAdvertiseOnce` | src/proxy/cluster.rs:697-716 | for all local migration states exactly one half of a migration advertises its slots, so every slot is advertised once |
| `SlotTable.SwitchDecides` | src/proxy/cluster.rs:697-716 | the slots of a migration are the source part's while its state is PreCheck, and the destination part's in every other state and in none |
| `SlotTable.NodesAdvertised` | src/broker/query.rs:162-263 | the nodes advertise exactly what the parts do, in every role position |
| `ProxyTable.GroupDistinct` | src/broker/query.rs:97-112 | grouping neighbouring masters yields one peer per proxy |
| `ProxyTable.PeerBookAdv` | src/coordinator/sync.rs:114-118 | the map of peers holds all their slots |
| `ProxyTable.LocalBookAdv` | src/coordinator/sync.rs:124-128 | the map of own nodes holds all their slots, except the first page when two nodes share an address |
| `ProxyTable.GenClusterSlots` | src/proxy/cluster.rs:718-758 | the loops print every range that is not ignored under its own address, or fail exactly when an address has no port |
| `ProxyTable.OneServer` | src/broker/query.rs:162-263 | for all roles and local migration states exactly one half of the cluster serves each slot |
| `ProxyTable.ProxyClusterSlots` | src/proxy/cluster.rs:160-173 | for every store state, member proxy, role, limit and local migration states: no table exactly when a printed address has no port; no slot twice; every line with a slot carries the address of the one half serving it, for a migration the source's proxy in PreCheck and the destination's otherwise; and the table holds all slots if and only if the proxy forgets no page |
| `ProxyTable.ForgetsExactly` | src/coordinator/sync.rs:124-128 | slots are forgotten if and only if the proxy holds both masters of its chunk, its nodes share an address, and the first page has stable slots or a migration half that is not hidden |
| `ProxyTable.ForgettingExample` | src/coordinator/sync.rs:124-128 | a store that meets the invariant and for which no line of the printed table holds slot 0 |
| `Allocator.GroupByHost` | src/broker/update.rs:515-532 | the lists per host hold every free proxy exactly once |
| `Allocator.RemoveRedundant` | src/broker/update.rs:617-644 | trimming succeeds exactly if the counts suffice; a host with more than half of the proxies is cut to what the others have, all others stay |
| `Allocator.PickSecond` | src/broker/update.rs:568-589 | the partner host is a free other host with the fewest links and then the most proxies, for every order of candidates |
| `Allocator.PairKeepsRoom` | src/broker/update.rs:553-612 | taking one proxy off the largest host and one off any other leaves room for the remaining pairs |
| `Allocator.AllocateChunk` | src/broker/update.rs:534-615 | no lookup fails, the pairs are disjoint and cross-host, both errors come exactly when the counts say, and each pair takes a largest host and its least linked partner, counting the pairs taken before |
| `Allocator.PairingNeeds` | src/broker/update.rs:617-644 | any set of disjoint cross-host pairs satisfies the count test |
| `Allocator.BuildLinkTable` | src/broker/update.rs:701-761 | any two hosts of which one has a proxy outside clusters have entries, and counts are the chunks on both hosts |
| `Allocator.GenerateFreeChunks` | src/broker/update.rs:434-463 | exactly the asked number of pairs, with that preference over the chunks of the store, never ResourceNotBalance, and NoAvailableResource if and only if no such pairs exist |
| `Allocator.GenerateNewFreeProxy` | src/broker/update.rs:646-699 | no lookup fails; the replacement is a free proxy on a linked host with the fewest shared chunks and then the most free proxies; there is none if and only if no such host exists |
| `ChunkOps.CreateSlots` | src/broker/update.rs:189-217 | new slots are a balanced partition if and only if there is a slot for every master, and then one range each, in a row from slot 0 |
| `ChunkOps.AddFree` | src/broker/update.rs:285-348 | empty masters at the end keep the invariant and the target |
| `ChunkOps.UsedFirst` | src/broker/update.rs:380-396 | at rest the chunks in use come first |
| `ChunkOps.RetainUsed` | src/broker/update.rs:380-400 | the chunks kept are exactly those in use, in order, all their masters have slots, and the removed ones hold nothing |
| `Metadata.SetChunks` | src/broker/query.rs:296-395 | changing the chunks of one cluster keeps all metadata consistent when its proxies are re-tagged |
| `Metadata.TagProxies` | src/broker/update.rs:172-183 | the loop tags exactly the proxies of the chunks |
| `Metadata.AppendChunks` | src/broker/update.rs:189-239 | chunks of free proxies can be added to a cluster |
| `Metadata.DropChunks` | src/broker/update.rs:404-411 | dropping chunks frees exactly their proxies |
| `Metadata.ReplaceProxy` | src/broker/update.rs:798-832 | a free proxy can take the place of a failed one |
| `Metadata.PairingIsUsable` | src/broker/query.rs:265-294 | the allocator's pairs are exactly the disjoint cross-host pairs of registered proxies in no cluster, not failed over and not reported |
| `MetaStore.CheckMetadata` | src/broker/query.rs:296-395 | the loops return true exactly for consistent metadata |
| `MetaStore.NameRules` | src/common/cluster.rs:389-421 | names have at most 31 characters, all letters, digits, '@', '-' or '_' |
| `MetaStore.AddressParts` | src/broker/update.rs:92-100 | an accepted proxy address is a host, one colon and a port, and the default host is its first part |
| `MetaStore.MetaStore.constructor` | src/broker/store.rs:326-336 | the empty store satisfies the invariant |
| `MetaStore.MetaStore.AddProxy` | src/broker/update.rs:85-133 | the proxy is added once, failure marks are cleared, and the epoch moves exactly when something changed |
| `MetaStore.MetaStore.RemoveProxy` | src/broker/update.rs:417-432 | a proxy is removed if and only if it is known and outside clusters |
| `MetaStore.MetaStore.AddFailure` | src/broker/update.rs:26-43 | a new report is recorded and moves the epoch, a repeated one changes nothing |
| `MetaStore.MetaStore.AddCluster` | src/broker/update.rs:135-186 | succeeds exactly when name and number allow and there are pairs of usable proxies, and uses such pairs; masters are on both halves of every chunk; the slots are a partition exactly up to 16384 masters; errors change nothing |
| `MetaStore.MetaStore.RemoveCluster` | src/broker/update.rs:242-262 | the cluster goes and its proxies get free |
| `MetaStore.MetaStore.AutoAddNodes` | src/broker/update.rs:285-348 | empty chunks of usable proxies are added at the end and their nodes returned, exactly when nothing migrates and such pairs exist |
| `MetaStore.MetaStore.AutoDeleteFreeNodes` | src/broker/update.rs:363-415 | exactly the trailing chunks without slots go, every master left has slots, and their proxies get free |
| `MetaStore.MetaStore.MigrateSlots` | src/broker/migrate.rs:20-48 | starts a scale-out that keeps owners, exactly when a part is empty and nothing migrates; the epoch moves also on errors |
| `MetaStore.MetaStore.MigrateSlotsToScaleDown` | src/broker/migrate.rs:286-327 | starts a scale-down that keeps the invariant exactly under the safety test |
| `MetaStore.MetaStore.CommitMigration` | src/broker/migrate.rs:437-561 | commits exactly a stored migration of the given ranges and epoch; errors change nothing |
| `MetaStore.MetaStore.AutoDeleteFreeNodesIfExists` | src/broker/update.rs:350-361 | trailing chunks without slots go, and a running migration or their absence is not an error |
| `MetaStore.MetaStore.CommitAndClear` | src/broker/store.rs:473-485 | succeeds exactly for a stored migration of these ranges and epoch, errors change nothing, and on success exactly the trailing chunks without slots go once nothing migrates |
| `MetaStore.MetaStore.ReplaceFailedProxy` | src/broker/update.rs:763-837 | no lookup fails, no slot changes its owner, neither the failed proxy nor its replacement has a master or slots in the chunk, and a usable proxy of a best host takes the failed half; NoAvailableResource if and only if no usable proxy is on another linked host; the chunk is on two hosts if the surviving half's host is not a best one and on one if it is the only best one |
| `MetaStore.PeerIsLinked` | src/broker/update.rs:742-759 | the link table counts at least one chunk between the failed host and the surviving half's host |
| `MetaStore.DecideHosts` | src/broker/update.rs:666-682 | which host the new half is on, from the counts of the store before: with a candidate that shares no chunk with the failed host the chunk stays on two hosts |
| `MetaStore.SharedHostExample` | src/broker/update.rs:763-837 | from an empty store, three proxies, one cluster and one failover lead to a valid store with a chunk on one host |
| `MetaStore.MetaStore.BalanceMasters` | src/broker/update.rs:939-971 | a chunk with either proxy failed or reported stays as it is, every other chunk gets its normal role |
| `MetaStore.MetaStore.Run` | src/broker/store.rs:311-324 | over every run of operations, up to the first that would start a planner outside its guard, the invariant holds, on success and on errors |
| `Blocking.CountsStep` | src/proxy/blocking.rs:419-449 | in every step the running counter equals what threads and commands hold, and the blocking count equals the live handles |
| `Blocking.RunInv` | src/proxy/blocking.rs:177-328 | all invariants hold in every reachable state |
| `Blocking.BlockingExcludes` | src/proxy/blocking.rs:262-353 | once blocking began and was observed done, no command is in the inner sender or past the decision until the count is zero |
| `Blocking.EntersInItsTerm` | src/proxy/blocking.rs:285-307 | a command stamped in a migration enters only if no episode began or ended between the stamp and the state read of this very pass |
| `Blocking.DecidesExactly` | src/proxy/blocking.rs:285-328 | after the state read a command is queued if and only if blocking was on; let in if and only if it was off and the command is outside migrations, or no episode was on at its stamp and none began or ended since; sent back otherwise |
| `Blocking.QuiescentIsEmpty` | src/proxy/blocking.rs:189-229 | an unblocked queue that nobody is due to look at is empty, and all queued commands were passed on |
| `Blocking.PassedOnOnce` | src/proxy/blocking.rs:209-229 | no queued command is passed on twice |
| `Blocking.QueueDrains` | src/proxy/blocking.rs:209-229 | a releasing thread can always empty the queue and pass on all it finds |
| `Blocking.ThreadMoves` | src/proxy/blocking.rs:177-449 | no thread is ever stuck |
| `Blocking.StepsInOrder` | src/proxy/blocking.rs:177-449 | a step is taken only by a thread that has come to it |
| `Blocking.ReleasesExactly` | src/proxy/blocking.rs:189-229 | the queue is released exactly by a thread that queued a command and then finds no blocking, that ends the last episode, or that stops blocking |
| `Blocking.SwapsExactly` | src/common/biatomic.rs:19-38 | count and term change together exactly if both are still what was loaded, and a lost race loads again |
| `Blocking.HandleWorks` | src/proxy/blocking.rs:177-200 | a handle left alone adds one to the count and takes it back, and each moves the term |
| `Blocking.WaitEnds` | src/proxy/blocking.rs:339-341 | waiting ends exactly when the running counter is zero, and until then a command inside can finish |
| `Blocking.PackedPair` | src/common/biatomic.rs:40-52 | packing and splitting two 32-bit numbers are inverse |
| `Resp.ParseExtended` | src/protocol/stateless.rs:38-77 | an accepted value or a protocol error is unchanged by appending bytes |
| `Resp.RoundTripExactly` | src/protocol/encoder.rs:19-72 | parsing an encoding followed by anything returns the value and takes exactly the encoding, if and only if no line holds a line feed and all sizes are below 2^63 |
| `Resp.PrefixNeedsMore` | src/protocol/stateless.rs:38-134 | every proper prefix of an encoding needs more data |
| `Resp.WireFormat` | src/protocol/encoder.rs:19-72 | an encoding starts with byte 43, 45, 58, 36 or 42 exactly for the simple, error, integer, bulk and array forms, and ends in bytes 13 and 10 |
| `Resp.WireParsed` | src/protocol/stateless.rs:38-77 | a parsed value has the form its first byte says, and any other first byte is a protocol error |
| `Resp.NumbersFit` | src/protocol/stateless.rs:99-134 | sizes are decimal numbers from -2^63 to 2^63 - 1 |
| `Resp.BulkExample` | src/protocol/encoder.rs:48-57 | the nine bytes of a three-byte bulk string |
| `Resp.ArrayExample` | src/protocol/encoder.rs:32-46 | the fourteen bytes of an array of the two nil forms |
| `RespCodec.SliceAdvanced` | src/protocol/resp.rs:316-330 | advancing all indices matches bytes put in front |
| `RespCodec.ParseIndex` | src/protocol/stateless.rs:38-77 | the zero-copy parser agrees with the owning parser and all indices lie within the consumed bytes |
| `RespCodec.ParseElements` | src/protocol/stateless.rs:79-97 | the element loop agrees with parsing the elements one after another |
| `RespCodec.ParseBulkIndex` | src/protocol/stateless.rs:99-112 | bulk strings are sliced within bounds, with nil and missing bytes told apart |
| `RespCodec.ParseIndexed` | src/protocol/stateless.rs:32-36 | the buffer is split after the value, whose indices are good for the split-off bytes |
| `RespCodec.ArrayElementIs` | src/protocol/resp.rs:40-54 | the accessor never slices out of bounds and returns the element of the value |
| `RespCodec.Writer.EncodeResp` | src/protocol/encoder.rs:19-30 | exactly the encoding is appended and its length returned |
| `RespCodec.Writer.EncodeArray` | src/protocol/encoder.rs:32-46 | the element loop appends the encodings in order and sums their lengths |
| `Packet.TakenInOrder` | src/protocol/packet.rs:631-679 | for every chunking of encoded replies the replies taken are the first ones sent |
| `Packet.Codec.Encode` | src/protocol/packet.rs:599-611 | a request is accepted exactly when the shared cell is empty |
| `Packet.Codec.Decode` | src/protocol/packet.rs:631-679 | the next packet comes back once all its replies are there |
| `Packet.ShapesInOrder` | src/protocol/packet.rs:542-570 | the k-th packet has the shape of the k-th accepted request; cell and current hint are the rest of the queue |
| `Packet.RepliesInOrder` | src/protocol/packet.rs:631-679 | the k-th packet carries exactly the next replies |
| `Packet.PacketsInOrder` | src/protocol/packet.rs:542-679 | both hold in every state a codec can be in |
| `Packet.Codec.Run` | src/protocol/packet.rs:573-679 | over every interleaving the received bytes are those that arrived, and accepted shapes and returned packets only grow |
| `Packet.RunInOrder` | src/protocol/packet.rs:573-679 | in every run of a new codec the packets have the accepted shapes in order and carry the replies in the order sent, however the bytes are cut |
| `Transfer.RunInv` | src/migration/scan_migration.rs:336-535 | all invariants hold in every reachable state |
| `Transfer.NoKeyLost` | src/migration/scan_migration.rs:476-535 | a key is deleted at the source only after the destination accepted or already held it, and restored values are the source's |
| `Transfer.ArrivedIsHeld` | src/migration/scan_migration.rs:603-725 | a key that arrived or was deleted at the source, and that no client touched, is at the destination: with its own earlier value if it had one, with the source's otherwise |
| `Transfer.ClientWins` | src/migration/scan_migration.rs:671-707 | a client's write at the destination is never overwritten by the migration |
| `Transfer.RemovalLasts` | src/migration/scan_migration.rs:537-707 | in every run a key the destination does not hold stays away until a client writes it, whatever happens, if and only if no mover has its value and it is not a key of the range still at the source |
| `Transfer.SyncedRemovalLasts` | src/migration/scan_migration.rs:537-581 | a key removed right after its synchronization stays away, unless another mover has its value |
| `Transfer.RemovalUndone` | src/common/resp_execution.rs:26-66 | without waiting for the mover a removed key can be restored by a retry |
| `Transfer.ScanLeavesNothing` | src/migration/scan_migration.rs:374-474 | a finished scan leaves no key of the range at the source; each one expired, was touched by a client, or is at the destination with its value |
| `Transfer.SmoothStep` | src/migration/scan_migration.rs:374-474 | every scanner step without failure brings the scan nearer to its end |
| `Transfer.ScanFinishes` | src/migration/scan_migration.rs:374-474 | from every reachable state between two rounds such steps lead to the end of the scan |
| `Transfer.MoverMoves` | src/migration/scan_migration.rs:476-581 | no mover is ever stuck |
| `Transfer.StepsInOrder` | src/migration/scan_migration.rs:476-581 | dump, restore, delete and the next round follow each other |
| `Transfer.OutsideSteps` | src/migration/scan_migration.rs:374-581 | every command to a node may fail, and clients may write and remove at any time |

## Left out

- HTTP, sockets, timers, JSON persistence, compression, configuration and statistics.
- CRC16 and key tags: keys are only in or out of a migrating range.
- Ordered-proxy mode of the broker (`enable_ordered_proxy`), and cluster configuration.
- The composite scaling calls auto_scale_up_nodes, auto_change_node_number and auto_scale_out_node_number, which only call operations modelled here.
- force_bump_all_epoch, recover_epoch and restore: only epochs change, or a whole snapshot is taken over that would have to satisfy the invariant already.
- Failure reports: their times and the quorum are not kept, only who reported whom.
- A takeover visits the migrations of one part of the failed proxy; the claim is that both halves always agree, not that every migration on the proxy is stamped.
- Nothing is claimed about commands at the source after the switch as a whole: the migration state and the blocking term are read separately in the code.
- Wrap-around of 32-bit terms and counts and of 64-bit epochs.
- The memory a parser may reserve for an announced array size.
- Encoding errors of the underlying writer: a write appends all its bytes.
- Slot locks in the key transfer: a conflict shows as a key that could not be locked; mutual exclusion itself is a single compare-and-swap, and whether the locks always keep a second mover off a key is not claimed.
- Packet.Codec.Decode: the shared cell is accessed once per call, so a call is one step of an interleaving; the I/O error after a request was accepted is not modelled.
- Replication peers of nodes; of a node's role only master or replica is kept.
- The proxy's CLUSTER NODES text and the RESP frame around a table line; the table is modelled as ranges with addresses.
