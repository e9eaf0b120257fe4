# Triplox transaction pipeline, verified

Triplox stores facts `(entity, attribute, value, transaction, assert or retract)` as ordered byte
keys in four covering indexes. A transaction arrives from a log as a list of operations. The
indexer expands it, replaces tempids by entity ids, validates it, rewrites single-valued
assertions, checks uniqueness, derives a schema delta and writes keys. Everything in memory must be
recoverable from the keys.

This project models that path from the bytes up to whole runs of a database, and proves what the
system promises about it. Loops and objects of the source are methods and classes here, each proved
equal to a specification function; the specification functions carry the theorems.

| modules | contents |
|---|---|
| `Octets`, `Ordered` | byte order, successor of a prefix, ordered enumeration |
| `Values`, `Encode`, `Bits`, `Decode` | values, the order-preserving encoding and its bitwise form, decoding and skipping |
| `Scan`, `Facts`, `Index`, `Store`, `Lookup` | index keys, forward-only scans, liveness of facts, batch lookups |
| `UnionFind`, `Labels`, `Upsert`, `Evolution`, `Tempids`, `Resolver` | tempid resolution |
| `Rounds`, `UpsertLoss`, `LostUpsert` | what resolution discards, told from its input |
| `Leftover`, `Resolvable` | when resolution succeeds, and what it gives to whom, told from its input |
| `Model`, `Partition`, `SchemaRules`, `Expand`, `Expander`, `Validate`, `Stages` | the other stages of a transaction |
| `Transact`, `Invariant`, `Sources`, `Preserve`, `SchemaKept`, `Runs` | the state machine and its invariants |
| `Bootstrap`, `InitDb`, `Theorems`, `Indexer` | a fresh database, everything it can reach, and the indexer object |
| `Effect`, `Transfers` | what a commit makes live and ends, and when uniqueness lets it pass |
| `Meaning`, `Operations`, `Outcomes` | what the operations of a transaction mean, and what is live after they commit |
| `SchemaAccepted`, `Committing` | when a transaction commits, aborts or stops the indexer |
| `Asserting`, `Installing`, `FreshRuns` | transactions that commit, and runs built from them |
| `Performing`, `Exchanges` | unique values that move and swap, many values, equal numbers |
| `Recovery`, `Reload`, `Forgotten` | what a restart rebuilds, and what it cannot find |
| `SharedValue` | where uniqueness ends |
| `TxLog`, `Subscription`, `Schedules`, `Progress` | the log, subscribers on a lossy broadcast, the orders they can follow, and that they catch up |
| `Accepting`, `Waiter` | the indexer as a subscriber, and waiting for its completions |
| `Aggregation` | grouping of query rows |

`Transact.Step` is the specification of one transaction and `Transact.State` its state: stored
facts, partition counters, schema, latest transaction. `Indexer.Indexer.TransactTx` refines it,
down to the stored keys. `Invariant.Inv` is kept by every step (`Runs.StepKeeps`), holds in the
fresh database (`Bootstrap.BootHolds`), and so in every state of every run (`Bootstrap.Reachable`);
`Theorems` spells out what that means for a user. An error of the source is `Err(false)`; a panic
is `Err(true)` and leaves the model's state unchanged.

Both halves of a transaction are also told without its stages. `Committing.CommitsIff` says exactly
when it commits, from its operations, the store, the schema and the counters;
`Outcomes.CommitMeans` says exactly what is live afterwards.

## Promises that hold only under a condition

- *A dropped upsert is in the store.* The comment on the `upserted` population
  (src/upsert_resolution.rs:53-55) says so, and the evolution loop relies on it when it discards
  that population at each step. It is false: `LostUpsert.UpsertCanBeLost` is a run of a fresh
  database whose last transaction commits without its one new assertion. `UpsertLoss.LostIff` gives
  the exact condition, told from the transaction, the schema and the store before resolution:
  `Rounds.Round` says in which round each tempid is first bound, and an assertion is lost exactly if
  its own lookup misses in the round in which another one binds its tempid, a further round follows,
  and no surviving datom says the same.
- *One owner per unique value.* The owner tables are hash maps, and a NaN is not equal to itself,
  so no lookup finds it. `SharedValue.UniqueExactly` shows that, in every state with the
  invariants, a value can be given to two entities exactly if it is not equal to itself
  (a NaN, or a vector or map with a NaN in it), and `SharedValue.UniqueCanFail` is such a run.
  `Theorems.OneLiveOwner` is the positive half over whole runs.
- *A committed assertion is live.* A single value that equals the stored one as a number is not
  written: over `0.0`, the assertion of `-0.0` commits and leaves `0.0`. `Effect.CommitEffect` gives
  what is live after every commit, with exactly that exception (`Effect.Absorbed`), and
  `Exchanges.AbsorbedRun` is such a run.
- *A restart finds the counters and the latest transaction.* True exactly while the counters are
  at most 2^40, the range of the three-byte partition prefix (`Theorems.RestartAgrees`).
  `Forgotten.RestartForgets` is a run after which it does not.
- *A subscriber sees every record.* True for every interleaving up to cancellation exactly if no
  broadcast runs ahead of the log order (`Schedules.NeverGapsIff`). `Subscription.CancelledMayGap`
  shows that a cancellation can leave a gap. The log in memory releases its lock before it
  broadcasts, so it does not ensure the order on its own.
- *Waiting for a transaction ends once it is indexed.* The loop answers exactly if some receive is
  not a lag and comes to the completion or a later one (`Waiter.TxWaiter.Follow`), and that is
  certain once enough receives were no lags (`Waiter.HeardEnough`). Without that it may wait
  for as long as transactions keep coming: `Waiter.Starves` keeps every receive behind, at every
  capacity and for any number of turns that the 64-bit ids leave room for.

## Model

| member | source | states |
|---|---|---|
| Octets.PrefixIsInterval | src/util.rs:243-253 | the strings under a prefix are an interval that starts at the prefix |
| Octets.NextPrefix | src/util.rs:243-253 | the loop returns nothing iff every byte is 0xFF, else the prefix cut after its last smaller byte with that byte incremented |
| Octets.SuccessorEndsPrefix | src/util.rs:243-253 | a string at or after the prefix is under it iff it comes before the successor |
| Octets.NoSuccessorMeansLast | src/util.rs:243-253 | without a successor nothing outside the prefix comes after it |
| Encode.I64Order | src/codec.rs:113-128 | larger integers encode strictly below smaller ones: descending order |
| Bits.IntegerBits | src/codec.rs:113-133 | at 64 and 128 bits the encoder functions write the two's complement with all but the sign bit toggled, as the source does bit by bit |
| Bits.FloatBits | src/codec.rs:165-201 | at 64 and 32 bits the encoder functions write the sign test, complement and toggled sign bit of the source |
| Encode.ScaledMonotone | src/codec.rs:165-217 | a larger float magnitude pattern denotes a larger absolute value, through subnormals and binades |
| Encode.SortableOrder | src/codec.rs:165-217 | the sortable form of a double or float compares exactly as totalOrder of section 5.10 of IEEE 754-2019 |
| Encode.BytesOrder | src/codec.rs:244-259 | escaping and the terminator keep the order of byte strings, decided before either encoding ends |
| Encode.KeywordOrder | src/codec.rs:325-329 | keywords are ordered by namespace, then name |
| Encode.VectorOrder | src/codec.rs:363-368 | vectors are ordered elementwise, shorter first |
| Encode.EntriesOrder | src/codec.rs:370-377 | maps are ordered entry by entry, key before value |
| Encode.EncodingOrder | src/codec.rs:345-377 | for all values at all nesting depths a smaller value encodes strictly below, decided before either encoding ends |
| Encode.ByteOrderIsValueOrder | src/codec.rs:345-377 | with anything appended to either side, byte order is value order in both directions, and encodings are prefix-free |
| Encode.EncodingSplits | src/codec.rs:345-377 | an encoding followed by a rest determines both value and rest |
| Encode.EncodeBytes | src/codec.rs:244-259 | the escaping loop appends exactly the specified encoding to the buffer |
| Encode.EncodeDatatype | src/codec.rs:345-361 | the encoder appends exactly the specified encoding to the buffer |
| Encode.EncodeComposite | src/codec.rs:363-368 | the element loop appends the specified vector encoding |
| Encode.EncodeMap | src/codec.rs:370-377 | the entry loop appends the specified map encoding |
| Decode.BytesRoundTrip | src/codec.rs:244-288 | decoding an escaped byte string followed by any tail gives the string and that tail |
| Decode.KeywordRoundTrip | src/codec.rs:325-343 | decoding an encoded keyword followed by any tail gives the keyword and that tail |
| Decode.RoundTrip | src/codec.rs:345-440 | decoding any encoded value, nested to any depth, followed by any tail gives the value and exactly that tail |
| Decode.SkipAgrees | src/codec.rs:446-525 | on every input where decoding succeeds, skipping succeeds and leaves the same rest |
| Decode.SkipPastEncoded | src/codec.rs:446-525 | skipping an encoded value lands on what follows it |
| Decode.DecodeBytes | src/codec.rs:261-288 | the unescaping loop computes the specified parse, errors included |
| Decode.DecodeDatatype | src/codec.rs:379-404 | the decoder computes the specified parse on every byte string, errors included |
| Decode.DecodeComposite | src/codec.rs:406-418 | the element loop computes the specified parse |
| Decode.DecodeMap | src/codec.rs:420-440 | the entry loop computes the specified parse; a repeated key overwrites, keys come out in order |
| Decode.SkipTerminatedBytes | src/codec.rs:480-498 | the loop finds the same terminator as the specification, or fails |
| Decode.SkipDatatype | src/codec.rs:446-470 | the skipper computes the specified rest on every byte string |
| Decode.SkipComposite | src/codec.rs:500-511 | the loop over elements computes the specified rest |
| Decode.SkipMap | src/codec.rs:513-525 | the loop over entries computes the specified rest |
| Scan.FindLiveKeyUnderPrefix | src/tx.rs:313-342 | the first live key under the prefix, dead groups skipped by the prefix successor, or nothing iff there is none; the cursor stays usable for every later prefix |
| Scan.BatchFind | src/tx.rs:348-391 | one forward-only cursor with early stop gives for every prefix what a full scan of its own would give |
| Scan.CollectUnderPrefix | src/tx.rs:395-457 | the inner loop returns exactly the live keys under one prefix |
| Scan.BatchCollect | src/tx.rs:395-457 | one pass over ascending prefixes returns exactly the live keys under any of them, each once, in key order |
| Facts.LiveAfter | src/indexer.rs:303-382 | after a transaction a triple is live iff the transaction asserts it, or it was live and is not retracted |
| Index.KeyInjective | src/indexer.rs:53-146 | a key in an index determines its fact |
| Index.GroupOrder | src/indexer.rs:53-146 | within a triple later transactions come first, and an assert before a retract of one transaction |
| Index.HeadIsLatest | src/tx.rs:313-342 | the first key of a group is the latest entry of its triple, and only that one is |
| Index.UniqueFound | src/tx.rs:348-391 | a key found under a unique prefix belongs to a live owner of the value |
| Index.UniqueMissed | src/tx.rs:348-391 | a miss under a unique prefix proves there is no live owner |
| Index.OldValueFound | src/indexer.rs:384-465 | a key found under an entity and attribute prefix spells a live value |
| Index.OldValueMissed | src/indexer.rs:384-465 | a miss proves the entity has no live value of the attribute |
| Index.EntityScan | src/tx.rs:395-457 | the live keys under an entity prefix are exactly those of the entity's live triples |
| Store.PartsInvertWriter | src/indexer.rs:697-764 | parsing inverts the writer of every temporal index |
| Store.ExtractorsAgree | src/util.rs:92-181 | the fixed-offset extractors return the component encodings that parsing finds |
| Store.PrefixesAgree | src/util.rs:187-232 | the prefix extractors of the temporal indexes stop exactly where the component begins |
| Store.AtemporalAgrees | src/util.rs:163-178 | on the two atemporal indexes parsing inverts the writer, and the offsets find the same components |
| Store.AllKeysHold | src/indexer.rs:53-146 | writing the keys of a set of facts makes every index hold exactly them |
| Store.HoldsUnion | src/indexer.rs:53-146 | adding the keys of new facts keeps the correspondence for old and new facts together |
| Store.IndexesAgree | src/indexer.rs:53-146 | EAV, AVE and AEV spell out the same facts, and VAE exactly those of unique attributes |
| Lookup.BatchLookupUniqueEids | src/tx.rs:348-391 | for every requested pair of a unique attribute: a live owner iff there is one |
| Lookup.BatchOldValues | src/indexer.rs:406-430 | for every wanted entity and attribute: a live value iff there is one |
| Lookup.BatchActiveTriples | src/tx.rs:395-457 | exactly the live triples of the requested entities, each once |
| UnionFind.Compress | src/union_find.rs:15-20 | pointing an element at its representative changes no class |
| UnionFind.Hang | src/union_find.rs:22-28 | hanging one root under another merges exactly the two classes |
| UnionFind.UnionFind.constructor | src/union_find.rs:9-13 | every element starts alone |
| UnionFind.UnionFind.Find | src/union_find.rs:15-20 | returns the representative; the classes stay, only parent links change |
| UnionFind.UnionFind.Union | src/union_find.rs:22-28 | merges exactly the classes of its arguments |
| Labels.LabellingHolds | src/upsert_resolution.rs:357-370 | the closed form of the labels is equal exactly on joined tempids, dense, and numbered in order of first appearance among the sorted tempids |
| Labels.LabellingUnique | src/upsert_resolution.rs:357-370 | there is only one such labelling, so no hash-map order shows in it |
| Labels.StarIsClique | src/upsert_resolution.rs:347-355 | uniting each member with the first joins the same tempids as uniting all pairs |
| Labels.UniteGroups | src/upsert_resolution.rs:347-355 | after the union loop two tempids share a root iff the groups join them |
| Labels.LabelTempids | src/upsert_resolution.rs:340-370 | union and numbering compute the labelling of the least equivalence, for every order of the groups |
| Upsert.From | src/upsert_resolution.rs:123-162 | the split into simple upserts, complex upserts, allocations and inert datoms, or the error for an unknown attribute |
| Upsert.Evolve | src/upsert_resolution.rs:204-281 | the three loops of a step compute the specified next generation |
| Upsert.StepConserves | src/upsert_resolution.rs:204-281 | under every assignment that extends the bindings a step keeps all datoms as a multiset, except the old `upserted` population |
| Upsert.StepShape | src/upsert_resolution.rs:204-281 | after a step no waiting datom mentions a bound tempid, and no more upserts are left than there were complex ones |
| Evolution.ResolveMeans | src/tempids.rs:23-53 | each tempid with a hit is bound to that hit, and every binding comes from a hit |
| Evolution.StepBound | src/tempids.rs:126-131 | the loop ends after at most one step more than there are complex upserts, for every store |
| Evolution.RunShape | src/tempids.rs:124-131 | bindings never change along a run, and what waits at its end is unbound |
| Evolution.RunConserves | src/tempids.rs:124-131 | over a whole run exactly the `upserted` populations of non-final generations disappear |
| Evolution.DroppedOwnHit | src/upsert_resolution.rs:222-227 | a dropped upsert was live in the store iff its own lookup hit |
| Tempids.SplitConserves | src/upsert_resolution.rs:123-162 | splitting the input loses and adds nothing |
| Tempids.RunWaits | src/upsert_resolution.rs:204-281 | no tempid is forgotten: at the end each is bound or waits |
| Tempids.RunStored | src/tempids.rs:23-53 | a tempid is bound only to an entity of the store |
| Tempids.LabellingDense | src/upsert_resolution.rs:357-370 | labels are exactly the numbers below the label count |
| Tempids.FinalSubstitutionTotal | src/upsert_resolution.rs:374-394 | the final substitution is total and is the image under the assignment, so "Unresolved tempid after allocation" cannot occur |
| Tempids.ResolutionConserves | src/tempids.rs:116-153 | output plus dropped upserts is the image of the input under one total assignment, as multisets |
| Tempids.AssignClasses | src/tempids.rs:133-144 | one new id per class, different classes different ids, in the schema partition iff a member of the class asserts `:db/ident` |
| Tempids.ResolutionAssigns | src/tempids.rs:116-153 | a tempid is bound to a stored entity or gets the new id of its class, never both |
| Tempids.NewIdsWritten | src/tempids.rs:133-152 | every id given out is the entity of an assertion in the output |
| Rounds.RunDiscards | src/tempids.rs:124-131 | the evolution loop drops, from any round on, exactly the assertions that the rounds told from the input alone discard, and ends with the bindings of those rounds |
| Rounds.SurvivorsWritten | src/tempids.rs:116-153 | the output is the image of exactly the input datoms that no round discards, as multisets |
| UpsertLoss.LostIff | src/upsert_resolution.rs:204-281 | in every state with the invariants, a datom is neither written nor stored iff in its round its own lookup misses, another lookup of its tempid hits, a further round follows, and no surviving datom says the same; told from the expanded transaction, the schema and the store |
| Resolver.ResolveTempIdAvs | src/tempids.rs:23-53 | the candidate loops over the stored keys compute the specified bindings, or the conflict |
| Resolver.CandidatesDecide | src/tempids.rs:40-52 | resolution succeeds iff every tempid has one candidate entity |
| Resolver.RecordResolutions | src/tempids.rs:55-75 | the bindings are merged, with an error iff two disagree; over a whole resolution `Resolvable.EvolvesIff` says when that happens |
| Resolver.InferTempidPartitions | src/tempids.rs:85-98 | a tempid is mapped to the schema partition iff some datom asserts its `:db/ident`, whatever the order |
| Resolver.AllocationPartitions | src/tempids.rs:100-112 | one partition per label: the schema partition iff some member names an ident |
| Resolver.SameClasses | src/upsert_resolution.rs:293-355 | the groups collected in the hash map generate the classes of shared identities |
| Resolver.TempIdsInAllocations | src/upsert_resolution.rs:287-370 | the labelling of the shared-identity classes, or the error iff a datom cannot be allocated |
| Resolver.EvolveLoop | src/tempids.rs:124-131 | the loop over the stored keys ends in the generation and bindings of the specified run, or in its error |
| Resolver.AllocateUnresolved | src/upsert_resolution.rs:181-196 | left-over complex upserts become allocations |
| Resolver.AssignLabels | src/tempids.rs:142-144 | each tempid gets the id of its label |
| Resolver.SubstituteAll | src/upsert_resolution.rs:374-394 | substitution of all allocations, or the error for an unresolved tempid |
| Resolver.ResolveDatoms | src/tempids.rs:116-153 | the method over keys and mutable counters returns what the specification returns and leaves its counters |
| Leftover.AllocsAre | src/upsert_resolution.rs:181-281 | what waits for allocation when the loop ends is exactly the input, bound tempids replaced, that still mentions a tempid |
| Resolvable.EvolvesIff | src/tempids.rs:124-131 | the loop goes through iff over all rounds, told from the input, every tempid is found as at most one entity; otherwise the transaction aborts |
| Resolvable.RoomIff | src/tempids.rs:133-141 | allocation succeeds iff each counter has room for as many ids as there are classes for its partition; otherwise it panics |
| Resolvable.ResolvesIff | src/tempids.rs:116-153 | resolution succeeds iff the attributes are known, findings agree, retractions and values mention only tempids that are found or stand as an entity, and there is room; and which failure aborts, which panics |
| Resolvable.AssignmentTold | src/tempids.rs:116-153 | each tempid gets the entity the rounds find, or a new one per class of shared unresolved identities, with classes and partitions told from the input |
| UpsertLoss.SimpleUpsertsKeepAll | src/upsert_resolution.rs:204-281 | without identity assertions between tempids nothing is dropped |
| LostUpsert.LostForGood | src/indexer.rs:303-382 | what a committed transaction has lost in this sense is not live afterwards |
| LostUpsert.UpsertCanBeLost | src/upsert_resolution.rs:204-281 | a run of a fresh database that installs three attributes, stores two values and commits a transaction whose one new assertion is not live afterwards |
| Partition.MakeEntityId | src/partition.rs:64-81 | partition and counter are recovered from the id |
| Partition.AllocateFresh | src/metadata.rs:20-32 | new ids are in their partition, were not allocated before, are afterwards, and differ |
| Partition.AllocateGrows | src/metadata.rs:20-32 | counters only grow, and only in the listed partitions |
| Partition.AllocateCovers | src/metadata.rs:20-32 | every counter value between old and new was given out |
| Partition.PartitionMap.AllocateEntid | src/metadata.rs:20-32 | returns the id of the old counter and advances that counter only |
| Partition.PartitionMap.SetTxCounter | src/metadata.rs:34-46 | moves the transaction counter past the id, or rejects an id that is not ahead and changes nothing |
| Partition.PartitionMap.AllocateEach | src/tempids.rs:137-141 | allocates for each label in turn; a full partition halts |
| SchemaRules.TypeIdsExact | src/schema.rs:204-243 | value types and their entity ids are inverse |
| SchemaRules.AppliedInverse | src/schema.rs:731-739 | applying new, different names keeps the two ident tables inverse |
| Expander.ExpandUnresolved | src/tx.rs:193-253 | the operation loop computes the specified expansion or its error, whose meaning is `Operations.ExpansionMeans` |
| Expander.CheckLookups | src/tx.rs:271-305 | accepts iff every lookup ref names a unique-identity attribute and a value of its type |
| Expander.AnswerDatoms | src/tx.rs:460-535 | the answers of one batch lookup resolve every datom as single lookups would |
| Expander.AnswerTargets | src/tx.rs:460-555 | the entities to retract, or the error for a missing one or a protected partition |
| Expander.EntityRetractions | src/tx.rs:395-457 | one retraction for exactly the live datoms of the targets |
| Expander.ValidateAllocated | src/tx.rs:580-606 | accepts iff every explicit entity and reference has been allocated |
| Expander.NotAllowedFails | src/tx.rs:460-535 | checking all lookups first rejects only what would fail one by one |
| Expander.ExpandOperations | src/tx.rs:557-574 | the stages over the stored keys compute the specified datoms or error |
| Meaning.OpMeans | src/tx.rs:193-253 | an operation succeeds iff its references and values stand for something in the store, and gives exactly the datoms it asks for |
| Operations.ExpansionMeans | src/tx.rs:557-606 | in every state with the invariants, operations expand iff each makes sense and every explicit id is allocated, else abort; and a datom is in the expansion iff an operation asks for it: an assertion per addition and put field, a retraction per removal, the live datoms of each retracted entity |
| Operations.OneTempIdEach | src/tx.rs:203-213 | the datoms of a put without `:db/id` share one tempid, and those of different such puts never do |
| Validate.SetSize | src/schema.rs:706-728 | a set of collected values has more than one element iff two assertions differ |
| Validate.TableDecides | src/schema.rs:487-528 | the table has a bad entry iff the transaction breaks a type, an add and retract or a cardinality rule |
| Validate.BuildTable | src/schema.rs:621-651 | the table of added and retracted values per attribute and entity, or the error for an unknown attribute |
| Validate.ValidateDatoms | src/schema.rs:487-528 | rejects iff a rule is broken, and reports whether the schema changes |
| Stages.FinalizeDatoms | src/indexer.rs:384-465 | the rewrite over the stored keys: unchanged values dropped, replaced values retracted, everything else kept; `Effect.WriteEffect` says what that makes live |
| Stages.AssertedOwners | src/indexer.rs:482-511 | fails iff two entities assert one unique value |
| Stages.ValidateUnique | src/indexer.rs:467-535 | accepts iff no two assertions clash and no other live owner keeps the value, which is iff no value ends with two owners (`Transfers.UniqueOkIff`) |
| Stages.PrepareSchemaUpdate | src/schema.rs:534-619 | the schema delta, or the error iff a schema datom is not installable or a definition is incomplete |
| Stages.ApplySchemaUpdate | src/schema.rs:731-739 | inserting names and definitions one by one gives the specified schema |
| Stages.WriteIndexEntries | src/indexer.rs:53-146 | the keys of all facts in all indexes, or the error for an unknown attribute |
| Stages.MoreUnique | src/indexer.rs:341-365 | a new unique attribute needs no new keys, as nothing is stored under it |
| Sources.SigmaKnown | src/tempids.rs:116-153 | every tempid ends at an entity allocated before or by this transaction |
| Sources.OutputKnown | src/tx.rs:580-606 | every entity and reference of a resolved datom is allocated |
| Preserve.LiveNow | src/indexer.rs:353-358 | what is live after the write, from the finalized datoms |
| Effect.WriteEffect | src/indexer.rs:384-465 | what is live after the write, from the datoms before the rewrite and the store before |
| Effect.CommitEffect | src/indexer.rs:303-382 | for every triple of another entity than the transaction's: live after a commit iff the resolved datoms assert it and no equal value absorbs it, or it was live and they neither retract it nor assert an unequal value of that single-valued attribute |
| Transfers.UniqueOkIff | src/indexer.rs:467-535 | validated datoms pass the unique check iff afterwards every value that equals itself has at most one owner under every unique attribute; told from the datoms, iff no two entities end with one value |
| Outcomes.CommitMeans | src/indexer.rs:303-382 | a commit from its operations: the resolved datoms are the images of what they ask for and no round discards, and what is live follows from those |
| Outcomes.RemovedIsGone | src/tx.rs:234-248 | what a removal or whole-entity retraction of a committed transaction asks to retract is live afterwards only if the transaction also asserts it |
| Outcomes.AddedIsLive | src/tx.rs:203-233 | what an operation asserts is live after the commit unless its upsert is discarded or an equal value absorbs it |
| Preserve.OneAssertion | src/schema.rs:706-728 | validated assertions about one single-valued attribute of one entity agree |
| Preserve.ReplacedValue | src/indexer.rs:384-465 | a new single value goes with a retraction of the old live one; the shortcut for unallocated entities never skips one |
| Preserve.SingleValuedKept | src/indexer.rs:384-465 | a commit keeps one live value per single-valued attribute and entity |
| Preserve.OwnerReplaced | src/indexer.rs:467-535 | a new owner of a unique value goes with a retraction by the old one, explicit or generated |
| Preserve.SingleOwnerKept | src/indexer.rs:467-535 | a commit keeps one live owner per unique attribute and value, through transfers and swaps |
| Preserve.TypedKept | src/schema.rs:653-675 | a commit keeps all facts typed and all references allocated |
| SchemaKept.NameIsNew | src/schema.rs:534-619 | an entity that gets a name had none |
| SchemaKept.NameUnused | src/indexer.rs:467-535 | a new name was not in use |
| SchemaKept.NamesDiffer | src/indexer.rs:467-535 | two entities never get one name in one transaction |
| SchemaKept.MirrorsChanged | src/schema.rs:534-619 | after a schema change the tables say what the live schema datoms say |
| SchemaKept.MirrorsUnchanged | src/indexer.rs:347-351 | without a schema datom the tables still say what the live schema datoms say |
| SchemaKept.SchemaInvariant | src/schema.rs:731-739 | every commit leaves inverse tables that mirror the stored schema, keep the system attributes and only grow |
| SchemaAccepted.SchemaPassesIff | src/schema.rs:534-619 | the schema check passes iff every schema datom repeats what the schema says or introduces a proper value of an entity that is no attribute yet, and new attributes get both a type and a cardinality |
| Committing.PassesIff | src/indexer.rs:333-351 | the checks on the resolved datoms pass iff these validate, leave no unique value with two owners and change the schema only as allowed |
| Committing.CommitsIff | src/indexer.rs:303-351 | a transaction commits iff its id is next or later, its operations are accepted, its tempids can be resolved with room in the counters, and the resolved datoms pass; it stops the indexer iff an id does not fit, and aborts otherwise |
| Runs.CommitCounters | src/indexer.rs:308-331 | counters after a commit: they grow, and the transaction's own id is new and later than all facts |
| Runs.CommitKeeps | src/indexer.rs:303-382 | a commit keeps the invariants |
| Runs.AbortKeeps | src/indexer.rs:558-572 | an abort keeps the invariants |
| Runs.StepKeeps | src/indexer.rs:272-301 | every transaction keeps the invariants, whatever its operations and its outcome |
| Runs.RunKeeps | src/indexer.rs:272-301 | from a state with the invariants every state of every run has them |
| Runs.StepGrowsSchema | src/schema.rs:731-739 | names and attribute definitions are never changed or removed |
| Runs.StepAdvances | src/indexer.rs:272-301 | a written transaction has a later id and adds only facts of its own; a failed one changes nothing |
| Runs.AbortFrame | src/indexer.rs:558-572 | an abort leaves schema, allocation counters and all other entities alone, and gives its own entity exactly four datoms |
| Asserting.Asserted | src/indexer.rs:303-382 | assertions about allocated entities that fit the schema, claim no foreign unique value and replace nothing do commit, and add exactly what they say |
| Installing.Install | src/schema.rs:534-619 | one transaction installs an attribute of any type and cardinality, unique or not, at a free entity: it can be looked up afterwards, and nothing else changes |
| Performing.Performed | src/indexer.rs:303-382 | additions and removals about allocated entities that validate, leave the schema alone and leave no unique value with two owners do commit, with exactly the intended effect |
| Performing.Swaps | src/indexer.rs:467-535 | in every state two owners of different unique values can swap them in one transaction |
| Performing.Transfer | src/indexer.rs:467-535 | in every state a live value can be removed from one entity and added to another in one transaction; it is then live there unless an equal value absorbs it |
| Performing.TwoValues | src/schema.rs:706-728 | one transaction gives an entity two values of a cardinality-many attribute, and it keeps those it had |
| Performing.Absorbs | src/indexer.rs:384-465 | asserting a value while an equal but different one is live commits and changes nothing |
| Exchanges.SwapRun | src/indexer.rs:467-535 | a run of a fresh database in which two entities swap their values of a unique attribute and the transaction commits |
| Exchanges.AbsorbedRun | src/indexer.rs:384-465 | a run of a fresh database in which -0.0 is asserted over 0.0, commits and is not live |
| Bootstrap.BootInverse | src/schema.rs:753-795 | the built-in ident tables are inverse |
| Bootstrap.BootHolds | src/bootstrap.rs:99-147 | the invariants hold in a fresh database |
| Bootstrap.Reachable | src/indexer.rs:272-301 | they hold in every state of every run of a fresh database |
| InitDb.OpsExpand | src/schema.rs:797-835 | the bootstrap operations expand to what the built-in tables say |
| InitDb.BootstrapWrites | src/bootstrap.rs:104-134 | the bootstrap transaction writes exactly the bootstrap facts |
| InitDb.BootValidates | src/bootstrap.rs:117-118 | the bootstrap datoms validate, so the unwrap cannot panic |
| InitDb.BootDelta | src/bootstrap.rs:119-131 | the delta of the bootstrap datoms is the built-in schema, so the assertions hold |
| InitDb.InitFresh | src/bootstrap.rs:84-148 | the bootstrap stages on an empty store, counters rescanned from the written keys, give an indexer in the fresh state |
| Theorems.OneLiveValue | src/indexer.rs:384-465 | in every reached state an entity has at most one live value of a cardinality-one attribute |
| Theorems.OneLiveOwner | src/indexer.rs:467-535 | in every reached state a unique value that equals itself has at most one live owner |
| Theorems.StoredIdsAllocated | src/tx.rs:580-606 | in every reached state every stored entity and reference has been allocated |
| Theorems.TxIdsIncrease | src/metadata.rs:34-46 | ids of written transactions strictly increase, and no fact is ever removed |
| Theorems.RestartAgrees | src/bootstrap.rs:42-75 | in every reached state a rescan gives the counters of memory iff none exceeds 2^40, and the latest transaction iff its counter does not |
| Theorems.SchemaAgrees | src/schema.rs:881-939 | in every reached state the rebuilt schema has the ident tables of memory and answers every attribute name alike |
| Theorems.ReloadSchema | src/schema.rs:881-939 | the rebuild from the rows of any reached state returns a schema that answers as memory does |
| Indexer.CommitHolds | src/indexer.rs:353-365 | the keys stay those of the facts through a commit, also when an attribute becomes unique |
| Indexer.AbortWrites | src/indexer.rs:558-572 | writing the aborted transaction entity cannot fail and keeps the keys those of the facts |
| Indexer.Indexer.CheckDatoms | src/indexer.rs:333-351 | steps 5 to 8 on the object's keys compute the specified result |
| Indexer.Indexer.ComputeTx | src/indexer.rs:303-351 | steps 1 to 8 compute the specified batch or error and change nothing |
| Indexer.Indexer.CommitTx | src/indexer.rs:353-381 | writes the keys, takes over counters and schema, announces the commit |
| Indexer.Indexer.WriteAbortedTx | src/indexer.rs:558-572 | writes only the transaction entity, or fails and changes nothing |
| Indexer.Indexer.TransactTx | src/indexer.rs:272-301 | every call is a step of the specified machine, keeps keys and facts together and sends one completion |
| Recovery.UnderPartition | src/partition.rs:47-53 | a key is under the truncated prefix iff its entity has that partition and a counter below 2^40 |
| Recovery.EntityOrder | src/bootstrap.rs:42-75 | later entities come first in the index |
| Recovery.ScanPartitionCounters | src/bootstrap.rs:42-75 | the scan finds one past the greatest counter below 2^40 stored in each partition, raised to the reserved range in the schema partition |
| Recovery.CountersRecovered | src/bootstrap.rs:42-75 | with the invariants the scan gives the counters of memory iff none exceeds 2^40 |
| Recovery.LatestTxKey | src/indexer.rs:156-193 | the id and time of the greatest transaction entity under the prefix, or nothing iff there is none with a time |
| Recovery.LatestRecovered | src/indexer.rs:156-193 | with the invariants that is the latest transaction of memory iff the counter is at most 2^40 |
| Forgotten.RestartForgets | src/bootstrap.rs:42-75 | a run of a fresh database with one committed transaction of id 2^40, after which every rescan gives the counters and the latest transaction of the bootstrap |
| Reload.RowsWellFormed | src/schema.rs:881-939 | the rows of every reached state are of the expected types, so no conversion panics |
| Reload.SchemaReloaded | src/schema.rs:881-939 | the rebuilt schema equals that of memory except for definitions without a name |
| Reload.BuildSchema | src/schema.rs:881-939 | the loops over the rows build the schema the rows spell, in any row order |
| SharedValue.NothingEquals | triplox-client/src/ops.rs:45-80 | nothing equals a value with a NaN in it |
| SharedValue.SharedByTwo | src/indexer.rs:467-535 | one transaction gives such a value of a unique attribute to any two allocated entities |
| SharedValue.UniqueExactly | src/indexer.rs:467-535 | some next transaction can give a value to two entities iff the value is not equal to itself |
| SharedValue.UniqueCanFail | src/indexer.rs:467-535 | a run of a fresh database that installs a unique double and commits a NaN to two entities |
| TxLog.BehindSplits | src/log.rs:160-169 | the records behind an id are exactly those up to it |
| TxLog.ReadMeans | src/log.rs:160-169 | a read returns the records right after the id, strictly later, without a gap |
| TxLog.MemoryLog.AppendTx | src/memory_log.rs:72-92 | the id is the position; the record goes to the log and to the subscribers |
| TxLog.MemoryLog.ReadTxsAfter | src/memory_log.rs:53-64 | the slice by position is what the reader contract asks for, from id -1 on; for ids below, and for -1 without wrap-around, the cast to a position gives nothing or a panic |
| TxLog.MemoryLog.EnsureBootstrapRecord | src/memory_log.rs:35-49 | the log starts with the bootstrap record afterwards, or an error iff it started with another |
| TxLog.CatchUp | src/log.rs:36-92 | on a log at rest, for every batch size: exactly the records after the start, up to the limit |
| Subscription.StepGood | src/log.rs:36-158 | every step short of cancellation keeps the accepted records contiguous, and skipped messages accepted or still owed |
| Subscription.NoGap | src/log.rs:94-158 | for every interleaving of appends, broadcasts that do not run ahead of the log, read errors, lags and receives: no gap, no repetition, and a lag catch-up reaches what the cursor has skipped; `Progress.CatchesUp` is the other half |
| Subscription.AlwaysRising | src/log.rs:94-158 | in every run, ordered or not, cancelled or not, accepted ids strictly increase from the start |
| Progress.ActionWorks | src/log.rs:36-158 | every action of the subscriber itself uses up a measure bounded by three times the log and the broadcasts |
| Progress.CatchesUp | src/log.rs:94-158 | from every uncancelled state of an ordered run, a bounded number of the subscriber's own actions leaves it live with every broadcast received and everything broadcast accepted, without a gap |
| Progress.AtMostWork | src/log.rs:36-158 | however the subscriber goes on by itself, it stops after at most that many actions |
| Progress.Busy | src/log.rs:36-158 | until the subscriber is live with every broadcast received there is always an action it can take |
| Progress.ReadsAll | src/log.rs:36-92 | on a log at rest, the subscriber's own actions from the start end with exactly the records after the start accepted |
| Schedules.NeverGapsIff | src/log.rs:94-158 | for every sequence of appends and broadcasts on an empty log: no subscriber ever has a gap before cancellation iff each broadcast is the next record or not later than one broadcast before |
| Schedules.EagerGaps | src/log.rs:119-152 | a subscriber that is live and receives at once has a gap right after the first broadcast out of turn |
| Subscription.OutOfOrderLoses | src/log.rs:119-152 | a run with two broadcasts swapped that loses a record for good |
| Subscription.CancelledMayGap | src/log.rs:36-158 | a run in which a cancelled lag catch-up leaves a gap before a live receive |
| Waiter.LookupFinds | src/tx.rs:616-688 | the storage lookup returns the recorded outcome of a transaction that has one |
| Waiter.BaselineDecides | src/indexer.rs:592-597 | the baseline tells exactly whether the transaction was indexed before the subscription |
| Waiter.HeardEnough | src/indexer.rs:599-623 | whatever the lags in between, after one turn more than there were completions up to the awaited one, not counting lags, some turn has answered |
| Waiter.Starves | src/indexer.rs:599-623 | at every capacity there are runs of any length in which the transaction was sent before the first turn and every turn lags |
| Waiter.TxWaiter.Receive | src/indexer.rs:599-623 | one turn at any capacity: waits iff nothing is left, lags iff the cursor has been overtaken, goes on iff the completion is an earlier one, and else answers with the recorded outcome |
| Waiter.TxWaiter.Follow | src/indexer.rs:599-623 | the loop answers iff some turn receives the awaited completion or a later one, and then with the recorded outcome |
| Waiter.TxWaiter.AwaitTx | src/indexer.rs:592-624 | answers iff the transaction was indexed before the subscription or some turn receives it or a later one, always with the recorded outcome; certain once enough turns were no lag |
| Accepting.Accept | src/indexer.rs:669-694 | one record adds one completion, also when it does not decode, and moves the baseline exactly if its outcome is stored |
| Accepting.AcceptAll | src/indexer.rs:669-694 | records accepted in log order leave a history with growing keys whose baseline is the latest indexed transaction, one completion per record |
| Accepting.StartsHistory | src/indexer.rs:549-555 | an indexer that has sent nothing starts such a history, with its latest transaction as baseline |
| Aggregation.ConcatInjective | src/query.rs:563-567 | concatenated encodings without separators determine the values |
| Aggregation.SameGroup | src/query.rs:563-567 | two rows share a key iff they agree on every group variable |
| Aggregation.CountsAddUp | src/query.rs:554-591 | group sizes add up to the number of rows, each accumulator sees exactly its group, and without group variables there is one group |
| Aggregation.ExecuteAggregation | src/query.rs:541-591 | the loops over encoded tuples build exactly the groups of the rows, values decoded |

## Left out

- Instants are microseconds as an integer: sub-microsecond parts, which the encoder cuts off, and the date range are not modelled.
- Decode.DecodeDatatype: strings are their UTF-8 bytes, and the errors for invalid UTF-8 and for instants out of the date range are not modelled.
- Keywords are a namespace (empty for none) and a name; interning and printing are not modelled.
- Equality of `0.0` and `-0.0`: `==` identifies them and hashing does not, so a hash table may or may not find one under the other; the model's tables keep them apart.
- Error messages: the text of an abort is a parameter of the model.
- `Put` fields are a list in any order, where the source iterates a `BTreeMap`; values that are maps list their keys in ascending order, as a `BTreeMap` does.
- The order of the retractions an entity scan delivers is a parameter, and every theorem holds for all of them.
- Storage: the engine is a set of keys with ordered scans; a write batch is atomic, I/O errors and read snapshots are not modelled.
- Panics stop the model without a change of state; what the process does after one is not modelled.
- Reload.BuildSchema: takes the answers of the three schema queries as rows in any order; the query engine that answers them is not part of this model.
- Waiter.LookupFinds: storage is abstracted to the outcomes sent so far, because user datoms may also assert `:db/txId`; the index scan of `lookup_tx_completion` is not modelled.
- Waiter.TxWaiter.AwaitTx: the channel stays open; the error after a shutdown of the indexer is not modelled, nor is `await_indexed`.
- TxLog.CatchUp: starts after an id that is not negative; read errors, cancellation and concurrent appends are in the step machine of `Subscription` and not in this method.
- TxLog.MemoryLog.AppendTx: push and broadcast are one act; the interleavings in between are those of `Subscription` and `Schedules`.
- Aggregation.ExecuteAggregation: stops at what each accumulator has been fed; the aggregate functions and the order of result rows are not modelled.
- The metadata generation number, which only tells caches to refresh.
- Kafka and file logs beyond the reader contract, the server, configuration, the client protocol and the EDN parser.
- Query planning, joins, expressions, incremental queries and as-of reads.
