# Mailbox bus: model and proofs

Many bus processes share one directory: an id counter, a seq counter per mailbox, one append-only log per
mailbox, a cold archive per mailbox, a derived index table, a registry event log and a snapshot file per
agent. One advisory lock serialises the writers, a process may die between any two of its writes, and no
correctness state lives in memory. This project models that durable core and proves what it keeps.

The files, from the bottom up:

- `Text`, `Codec`, `CodecLaws`, `ParserLaws`: bytes, decimal integers, the length-framed record format with its
  torn-tail tolerant parser, the laws everything else rests on, and exactly what the parser takes and refuses.
- `Sorting`, `Storage`, `StorageLaws`: the disk, the index table with INSERT OR REPLACE under its unique
  index on keys, and the scans over all logs.
- `Compaction`, `Reading`: moving a log prefix to the archive; cursor reads, first match and the wait loop
  with its index fast path.
- `Protocol`, `Invariant`, `Preservation`, `Runs`: the send, compact and open steps of any number of
  processes, one durable write at a time, with kills and power losses; the inductive invariant; and what
  holds over whole runs. `hist`, `sends` and `receipts` are history variables that no step reads.
- `FreshIds`, `KeyedSends`, `Dedup`, `IndexCoverage`, `WaitRuns`, `KeyedBroadcast`, `Forgetting`,
  `LookupRuns`, `CursorRuns`: dedup checks, waiting, lookups and cursor reads over whole runs; where the
  code keeps its promises only under a condition, the exact condition and runs that break it.
- `RegistryLog`, `RegistryLaws`, `TornRegistry`, `TornReads`, `Registry`: the event-sourced membership, what a
  torn log tail does to the next event and to the reads before it, and the snapshots.
- `Bus`, `BusLaws`, `CallerKeys`: the operations as methods over the mutable root, each proved against a
  function of the old disk and shown to be runs of the protocol; and what a caller's dedup key can do.
- `CallOutcomes`, `Outcomes`: what sends, replies, lookups, dedup checks, compactions and recoveries do, told a
  second time on arguments, registry, records and rows, apart from the functions the methods are proved against.
- `RetryRuns`: sends and replies under a key that was sent before, over whole runs.
- `Pusher`, `PushDelivery`, `PushRuns`: the channel push loop and its watermarks, alone and beside the bus.

A byte is a `char`. A timestamp is its canonical UTC text, passed in where the code reads the clock. Map and
directory orders are arbitrary. A process runs with the index and fsync on, as `cmd/mailbox-bus/main.go`
opens the bus, so a write that returned survives a power loss.

## Where the code and its comments differ

The model follows the code; each item is proved.

- An id can be given twice. The open recomputes the counter from files ending in `.log` only, so after a
  compaction it may fall below an archived id (`Forgetting.IdIsGivenTwice`). The comments at
  `internal/bus/bus.go:194-196` and `internal/bus/mail.go:121-123` say that this never happens. The exact
  condition is `FreshIds.RecoveryKeepsIdsFreshExactly`.
- A key can be forgotten. An open after a compaction rebuilds the index without archived records, and a
  kill between append and row followed by a compaction forgets a key with no open at all
  (`Forgetting.KeyIsWrittenTwice`), although `internal/bus/index.go:18-21` promises the key for the
  lifetime of the system. The key `-` is forgotten by every open (`CallerKeys.DashIsSentAgain`), because the
  log keeps it as the mark for no key, and by a death before its first row. The exact conditions, over all
  keys without a newline, are `KeyedSends.StepKeepsKeysExactly` and `KeyedSends.OnceIsKeptExactly`.
- A caller's key is not sanitized, although `internal/bus/record.go:38-39` says that header values are single
  lines by construction. A key with a newline can make the recipients' logs unreadable, so that the next open
  fails (`CallerKeys.NewlineKeyBreaksLog`), or rewrite another header field
  (`CallerKeys.NewlineKeyRenumbers`). What is proved of logs is false after such a send, so every run of
  the protocol is one whose keys have no newline: `CallerKeys.KeySurvivesExactly` shows that these are exactly
  the keys whose records reach the log.
- A keyed send to several recipients keeps only the last row (`KeyedBroadcast`): a resend reports one
  delivery, and the wait fast path skips a record that is there, which `internal/bus/index.go:160-162`
  calls impossible. When the sender dies halfway, the recipients it had not reached never get the message under
  that key (`RetryRuns.KilledBroadcastStaysPartial`). Waiting takes no lock, so the fast path also skips any
  record between its append and its row (`WaitRuns.AwaitedIsHidden`) and, if the sender dies there, until a
  later row of that mailbox and sender or an open (`WaitRuns.DeathHides`, `WaitRuns.HidingEndsExactly`,
  `WaitRuns.StaysHidden`). The exact conditions are `Reading.FastPathIsSafe`, `WaitRuns.FastPathExactly` and `IndexCoverage.StepCoversExactly`.
- A torn registry block is said to be dropped harmlessly (`internal/bus/registry.go:87-91`). Neither word holds.
  Until the next append every read sees what its lines spell: an agent without its role
  (`TornReads.RegisterIsReadEarly`), an unregister that the next append takes back
  (`TornReads.UnregisterIsTakenBack`), or an event of another agent (`TornReads.WrongVictim`).
  `TornReads.TornTailIsDroppedExactly` says exactly which tears are dropped, `TornReads.TearIsAtomicExactly` which
  are dropped or read as if the append had completed. The next block is then written behind the torn one and read
  with it: it can be lost, turn into its opposite or pick up stale fields, and
  `TornRegistry.NextEventAppliesExactly` says exactly when it is applied as written. Both hold, so that the tear is
  harmless, exactly when it left nothing or exactly the first line (`TornReads.TearIsHarmlessExactly`).
- Nothing repairs a snapshot that a dead process left stale: recovery does not rebuild the directory and no
  caller of the rebuild exists. `Registry.DeathBeforeSnapshot` and `Registry.OthersLeaveSnapshot` say when it
  goes wrong and that only its own agent's next operation mends it, and `PushDelivery.LostSnapshotLosesPushes`
  what it costs.
- The seq counter is written before the record is appended, the deviation from the design that
  `internal/bus/mail.go:146-151` describes; the protocol has that order.

## Model

| member | source | states |
|---|---|---|
| Text.AtoiItoa | internal/bus/record.go:128-139 | the decimal text written for any integer, negative ones included, reads back as that integer |
| Text.CounterRoundTrip | internal/bus/bus.go:314-366 | a counter file holds what was written into it: the text with its newline is trimmed and parsed back to the value |
| Text.SpaceCodes | internal/bus/bus.go:314-335 | which characters are white space, by code |
| Text.TrimExactly | internal/bus/bus.go:314-335 | what is trimmed is white space at either end, and all of it |
| Text.ReadCounterExactly | internal/bus/bus.go:314-366 | a missing counter file counts as 0; any other reads as the integer in it and fails exactly if there is none or it is negative |
| ParserLaws.AtoiExactly | internal/bus/record.go:128-139 | text is an integer exactly when it is one or more digits behind at most one sign |
| ParserLaws.SignsAndZeros | internal/bus/record.go:128-139 | leading zeros and a plus change no value and a minus negates it, which with the round trip fixes the value of every integer text |
| ParserLaws.DecimalForm | internal/bus/record.go:42-43 | the written form grows by one decimal digit for a factor of ten |
| Text.CutLine | internal/bus/record.go:117-121 | a header line whose key has no colon is cut at its own first `: `, whatever its value contains |
| ParserLaws.CutExactly | internal/bus/record.go:117-121 | a line has no field exactly when `: ` is nowhere in it, and is otherwise cut at the first one |
| Codec.Encode | internal/bus/record.go:40-64 | the buffer filled line by line is the specified encoding, with `-` for an absent reply reference and an absent or empty key |
| ParserLaws.EncodingIs | internal/bus/record.go:36-64 | the format byte by byte: ten named lines in order, the separator, the body, a blank line |
| Codec.ScanHeader | internal/bus/record.go:94-107 | the header scan stops at the first standalone `---` line, or before an unfinished line or the end |
| Codec.ReadFields | internal/bus/record.go:109-122 | the header lines before the first empty one become a field map, later lines winning; any line without key and `: ` fails |
| Codec.FindMissing | internal/bus/record.go:123-127 | reports the first required field the header lacks |
| Codec.ParseOneRecord | internal/bus/record.go:88-172 | the parse at a byte offset is the parse of the bytes from there on: complete, incomplete or malformed with its cause |
| Codec.ParseOne | internal/bus/record.go:140-171 | a complete record takes at least 6 bytes and never more than there are, so every parse loop advances and stays in bounds |
| Codec.ParseRecords | internal/bus/record.go:71-85 | the record loop returns exactly the specified records, consumed count, tail flag or error |
| Codec.ParseAll | internal/bus/record.go:66-85 | consumed never exceeds the data, and the tail is complete exactly when everything is consumed |
| CodecLaws.RoundTrip | internal/bus/record.go:40-172 | for every record: it parses back from its own encoding, consumed exactly, if and only if its header values are single lines, its timestamp is one, and its key is absent or neither `-` nor empty; the body is unrestricted |
| CodecLaws.ParseEncoding | internal/bus/record.go:88-172 | the same whatever bytes follow the encoding; an empty key comes back as absent |
| CodecLaws.ParsedIsClean | internal/bus/record.go:111-170 | every accepted record has single-line header values, a timestamp and no key `-` |
| ParserLaws.HeaderDecides | internal/bus/record.go:108-171 | header lines in any order, with unknown or repeated fields, and a body of the announced length: a record of exactly those values if the ten fields are there and numbers and time are good, malformed otherwise, whatever follows |
| ParserLaws.TimestampExactly | internal/bus/record.go:147-150 | a timestamp is six groups of digits between the fixed marks |
| CodecLaws.AllParsedAreClean | internal/bus/record.go:71-85 | the same for every record of a whole log |
| CodecLaws.ReEncode | internal/bus/record.go:40-172 | an accepted record, re-encoded, parses to itself up to an empty key |
| CodecLaws.ParseOneAppend | internal/bus/record.go:88-172 | a complete or malformed verdict never changes when bytes are appended |
| CodecLaws.ParseOneCut | internal/bus/record.go:88-172 | a record's own bytes suffice to parse it |
| CodecLaws.ParseAllAppend | internal/bus/record.go:71-85 | when the first part ends on a record boundary, parsing a concatenation joins the two results (errors of the second part included) |
| CodecLaws.ParseAllCut | internal/bus/record.go:66-85 | the bytes reported as consumed hold exactly the reported records and end on a boundary |
| CodecLaws.AppendRecord | internal/bus/mail.go:178-191 | appending one encoding to a log that ends on a boundary appends exactly its record |
| CodecLaws.ParseEncodeAll | internal/bus/record.go:71-85 | concatenated encodings parse to exactly their records |
| CodecLaws.StrictPrefixIncomplete | internal/bus/record.go:105-143 | every strict prefix of a well-formed record's encoding is incomplete, never an error |
| CodecLaws.TornAppend | internal/bus/record.go:66-70 | a torn append leaves the log's records readable and consumed at the old length |
| CodecLaws.TornTailRecovery | internal/bus/bus.go:207-222 | after whole records and a torn one, truncation restores exactly the whole encodings, and a second truncation changes nothing |
| CodecLaws.TruncatedIsSettled | internal/bus/bus.go:213-222 | truncating any readable log keeps its records and leaves it on a record boundary |
| ParserLaws.IncompleteCanEnd | internal/bus/record.go:88-146 | every incomplete verdict can be ended by appended bytes, so corruption is never taken for a torn append |
| ParserLaws.TornTailCanEnd | internal/bus/bus.go:207-222 | what recovery cuts off a log is a tail that more bytes would have made a record or an error |
| Sorting.SortBy | internal/bus/mail.go:217 | the result is in byte-wise string order of the key and a permutation of the input |
| Sorting.StrLeExactly | internal/bus/mail.go:217 | the order is decided at the first difference, a prefix coming first |
| Sorting.StrictlySortedUnique | internal/bus/mail.go:115 | a sorted duplicate-free list is determined by its elements, so a map's iteration order cannot show |
| StorageLaws.InsertSeqUnique | internal/bus/index.go:26-38 | however rows are inserted or replaced, no two rows share a non-null key |
| StorageLaws.InsertSeqKeepsKey | internal/bus/index.go:87-97 | a key carried by some inserted row is still carried by a row afterwards |
| StorageLaws.InsertSeqKeepsAll | internal/bus/index.go:87-97 | when no two rows compete for a name or a key every inserted row survives |
| StorageLaws.InsertSeqSource | internal/bus/index.go:81-97 | a row that survives is one that was inserted |
| StorageLaws.HitsSound | internal/bus/mail.go:202-213 | every hit of the log scan is a stored record of a visited mailbox that bears the key |
| StorageLaws.HitsComplete | internal/bus/mail.go:202-213 | every record of a visited mailbox that bears the key is a hit |
| StorageLaws.MaxIdOverBounds | internal/bus/bus.go:261-279 | the observed maximum bounds every live id and is one of them unless it is 0 |
| StorageLaws.AppendView | internal/bus/mail.go:178-191 | an append adds one record to one log and leaves every other log as it was |
| StorageLaws.TornView | internal/bus/record.go:66-70 | a torn append changes no log's records |
| StorageLaws.TruncateView | internal/bus/bus.go:207-222 | truncating a tail changes no log's records and settles that log |
| Compaction.FindBoundary | internal/bus/compact.go:83-107 | the boundary loop finds the specified cut and counts its records; a malformed record fails |
| Compaction.CompactCuts | internal/bus/compact.go:83-109 | the cut separates the leading records with seq up to the bound from the rest, byte for byte, and a torn tail stays in the live part |
| Compaction.CompactIsExact | internal/bus/compact.go:83-109 | on a log in seq order the archived records are exactly those with seq up to the bound |
| Compaction.CompactTwice | internal/bus/compact.go:39-41 | a second call with the same bound archives nothing |
| Compaction.CompactConserves | internal/bus/compact.go:105-139 | archive followed by live log parses to the same record sequence before and after |
| Compaction.CompactHolds | internal/bus/compact.go:111-138 | finished or killed between archive append and rewrite, a compaction loses no record and invents none |
| Compaction.CompactsHold | internal/bus/compact.go:74-140 | the same for any sequence of compactions, each finished or interrupted |
| Compaction.ScanForId | internal/bus/mail.go:278-282 | returns the record with the id before which no other has it, or none if no record has it |
| Compaction.LookupSurvivesCompaction | internal/bus/mail.go:271-301 | while ids are unique in a mailbox, no sequence of finished or interrupted compactions changes the answer of any lookup |
| LookupRuns.FreshIdsAreUnique | internal/bus/mail.go:271-301 | fresh ids are unique in every mailbox, archive included |
| LookupRuns.LookupFinds | internal/bus/mail.go:271-301 | while ids are fresh every record ever written is found by its id |
| LookupRuns.LookupIsStable | internal/bus/mail.go:271-301 | in every run whose opens meet the guard of fresh ids, a record found once is the answer in every later state, through sends, compactions, deaths and opens |
| LookupRuns.LookupAfterReuse | internal/bus/mail.go:271-301 | once an archived record's id has been given again in its mailbox, the lookup answers with the live record instead |
| Reading.ReadPage | internal/bus/mail.go:335-357 | the loop returns the first `limit` (0 means 256) of the records with seq above the cursor and of the wanted kind, in log order; told on the records: at most the limit, each above the cursor and of the kind, and none left out below the limit |
| Reading.SortBySeq | internal/bus/mail.go:358-360 | the sort returns a permutation in seq order |
| Reading.MatchingFacts | internal/bus/mail.go:345-357 | in a log in seq order the selection is in seq order and holds exactly the wanted records |
| Reading.SortIsIdentity | internal/bus/mail.go:358-360 | on a page in seq order every sort by seq is the identity |
| Reading.MatchingAfter | internal/bus/mail.go:321-324 | reading on from the last returned seq yields exactly the matches not yet returned |
| Reading.DrainIsComplete | internal/bus/mail.go:321-362 | reading repeatedly from the last returned seq terminates and yields every matching record once, in order, for every positive limit |
| Reading.ReadSurvivesCompaction | internal/bus/compact.go:83-109 | a compaction up to a bound at or below the cursor changes no read at that cursor |
| CursorRuns.PageIsWhatWasSent | internal/bus/mail.go:345-357 | while nothing above the cursor has been compacted away, a non-empty page is exactly what was sent from the cursor to its last seq |
| CursorRuns.ReadsDrainTheRun | internal/bus/mail.go:321-362 | reads from the last returned seq, with any limits, interleaved with any sends, deaths, opens and with compactions up to the cursor: the reader is given every matching record from its start to its cursor exactly once and in order, and all of them once a read is empty |
| Reading.MatchMailbox | internal/bus/mail.go:445-469 | returns the first record that meets every filter given, each told on its own field, and none only if no record meets them all |
| Reading.WaitIndexHasMatch | internal/bus/index.go:163-179 | true exactly when some row of the mailbox is above the cursor and, if asked, from the sender |
| Reading.FastPathIsSafe | internal/bus/index.go:158-162 | the fast path hides no record from any waiter if and only if for every live record the index has a row of that mailbox and sender at least as far on |
| Reading.HiddenIffUnreached | internal/bus/index.go:158-179 | the fast path hides one record from some waiter if and only if no row of its mailbox and sender is at least as far on, and then from the waiter for that very record |
| Reading.WaitForMessage | internal/bus/mail.go:408-442 | each check reads the index and then, unless it skips, the log, at different moments; the loop returns the first match of the first check that does not miss, and times out only if every check missed |
| Reading.WaitMeetsFilters | internal/bus/mail.go:382-469 | a wait returns only a record that meets the role, sender, kind and seq asked for, the least such; with a role or kind filter it reads the log at every check and times out only if no log it read held such a record |
| Reading.WaitIsExact | internal/bus/mail.go:408-442 | with no hypothesis: a check that misses read a log without a match, or hides only records that the index it read does not reach |
| Preservation.StepKeeps | internal/bus/mail.go:121-175 | every step of every process (send writes, compaction writes, open steps, kill, power loss with a torn append) keeps the whole invariant (dedup keys without a newline) |
| Preservation.BeginSendKeeps | internal/bus/mail.go:121-131 | taking and persisting the id keeps it (dedup keys without a newline) |
| Preservation.WriteSeqKeeps | internal/bus/mail.go:140-154 | persisting the next seq before the append keeps it |
| Preservation.AppendKeeps | internal/bus/mail.go:155-169 | appending the record keeps it: the new name is fresh, ids and seqs still ascend |
| Preservation.InsertRowKeeps | internal/bus/mail.go:170-173 | inserting the row, evicting whatever conflicts, keeps it |
| Preservation.ArchiveKeeps | internal/bus/compact.go:111-132 | the archive append keeps it, the prefix being stored twice until the rewrite |
| Preservation.RewriteKeeps | internal/bus/compact.go:134-138 | the live rewrite keeps it: what leaves the log is in the archive |
| Preservation.TruncateKeeps | internal/bus/bus.go:207-222 | truncating a torn tail during open keeps it |
| Preservation.WriteCounterKeeps | internal/bus/bus.go:223-229 | recomputing the counter from the live logs keeps it even when that lowers the counter |
| Preservation.RebuildKeeps | internal/bus/index.go:62-99 | rebuilding the index in any order keeps it and ends the outage |
| Preservation.KillKeeps | internal/bus/bus.go:281-296 | a kill between any two writes, which frees the lock, keeps it |
| Preservation.LosePowerKeeps | internal/bus/bus.go:188-192 | a power loss, tearing the append in progress at any byte, keeps it |
| Outcomes.DeathComesAnyTime | internal/bus/bus.go:281-296 | a kill of the lock holder and a power loss are possible in every state and leave the disk as it is and the lock free |
| Outcomes.AppendCanTear | internal/bus/bus.go:188-192 | a power loss in the first append of a send can leave any strict part of the record behind the log, with id and seq spent and no row |
| Runs.RunKeeps | internal/bus/mail.go:28-41 | the invariant holds along every run from a state that has it (dedup keys without a newline) |
| Runs.ReachableInv | internal/bus/mail.go:28-41 | the invariant holds in every reachable state (dedup keys without a newline) |
| Runs.DiskIsSound | internal/bus/bus.go:188-231 | in every reachable state live logs ascend in seq and id, every stored seq is within its seq counter, every live id is within the id counter, every log is readable, and without an outstanding power loss every log ends on a boundary (dedup keys without a newline) |
| Runs.SharingMeansOneSend | internal/bus/mail.go:121-175 | two live records share an id or a key only if one send wrote both, and then to different mailboxes (dedup keys without a newline) |
| Runs.RunExtends | internal/bus/mail.go:139-175 | history only grows along a run: a (mailbox, seq) name is never given twice and seq counters never fall |
| Runs.NoAcceptedMessageIsLost | internal/bus/mail.go:139-175 | once a send has returned, every listed delivery names a record with the returned id and the message, and in every later state of every run that record is in the recipient's live log or archive (dedup keys without a newline) |
| Runs.SendIsRun | internal/bus/mail.go:121-175 | a send that is not interrupted is a run of the step machine ending in exactly the disk and result the send method is proved to produce (dedup keys without a newline) |
| FreshIds.IdsAreFresh | internal/bus/bus.go:259-279 | ids are fresh against the full history, archives included, in every run whose opens find every archived id at or below the largest live id |
| FreshIds.RecoveryKeepsIdsFreshExactly | internal/bus/bus.go:188-231 | an open keeps ids fresh until the next open if and only if it finds every archived id at or below the largest live id |
| FreshIds.ReuseRun | internal/bus/bus.go:223-229 | from any state whose counter is below a historical id some continuation gives that id again |
| Forgetting.IdIsGivenTwice | internal/bus/bus.go:243-279 | a concrete run (send, compact everything, open, sends) gives one id to two sends, although the comments promise that an id is never reused |
| KeyedSends.StepKeepsKeysExactly | internal/bus/compact.go:35-37 | a step keeps every key ever sent, the key - included, visible to the dedup check if and only if its guard holds: a rewrite leaves the key a row or a live bearer; a recovery finds every archived key on a live record and no row under -; a process dying before the row of a record sent with - leaves an earlier row under it (dedup keys without a newline) |
| KeyedSends.KeyedSendsTakeEffectOnce | internal/bus/mail.go:82-91 | in every run that meets the guards all records sent with a key, - included, share one id, at most one per mailbox, through kills and power losses (dedup keys without a newline) |
| KeyedSends.OnceIsKeptExactly | internal/bus/index.go:18-21 | a rewrite, a rebuild or a kill leaves keyed sends once-only from then on if and only if its guard holds (dedup keys without a newline) |
| KeyedSends.ForgottenKeyRepeats | internal/bus/mail.go:85-91 | a key no longer visible is written a second time by the next send that carries it |
| Forgetting.KeyIsWrittenTwice | internal/bus/index.go:101-104 | a concrete run with no open (keyed append, kill before its row, compaction by another process, resend) writes a key twice |
| Dedup.QueryIndex | internal/bus/index.go:124-151 | answers exactly when a row bears the key: every such row once, sorted by mailbox, under the id of one |
| Dedup.CollectHits | internal/bus/mail.go:204-212 | the inner loop collects exactly one mailbox's bearers in order |
| Dedup.ReadAllLogs | internal/bus/bus.go:386-403 | every log parsed, or an error exactly when some log is malformed |
| Dedup.ScanLogs | internal/bus/mail.go:197-219 | fails exactly when a log is malformed; otherwise every live bearer, sorted, under the id of the first met; a miss means that no live record bears the key |
| Dedup.FindDedup | internal/bus/index.go:120-156 | the index answer when a row bears the key, otherwise the scan answer; a miss only if neither knows the key |
| Outcomes.AnswerTells | internal/bus/index.go:120-156 | the answer lists exactly the deliveries whose rows bear the key, or, if no row does, exactly the live records that bear it; each once, in byte order of the mailboxes, under the id of one of them |
| Dedup.AnswersAreHistorical | internal/bus/index.go:123-156 | with no hypothesis on recipients, every answer carries the id of a historical record sent with the key and lists only such records |
| Dedup.RepeatIsAnswered | internal/bus/mail.go:82-91 | while no key has been forgotten, a key sent with a record that has its row or its send behind it is known, starts no send, and is answered with its original id |
| IndexCoverage.RunCovers | internal/bus/index.go:12-21 | in every run whose keyed sends have one recipient and in which nobody dies between an append and its row, every live record has its row or awaits it |
| IndexCoverage.StepCoversExactly | internal/bus/index.go:101-118 | a step keeps a row for every live record if and only if it is not a death between an append and its row, not an insert that replaces another live record's row, and not a rebuild with two live records under one key |
| IndexCoverage.RebuildCoversExactly | internal/bus/index.go:62-99 | a rebuilt index has a row for every live record if and only if no two of them share a key |
| IndexCoverage.StepCovers | internal/bus/index.go:101-118 | under the two guards stated on callers and deaths every step keeps the cover |
| IndexCoverage.StepSingle | internal/bus/index.go:35-36 | while keyed sends have one recipient, every step, deaths included, keeps a live record's key from naming any row but its own |
| IndexCoverage.DedupIsScan | internal/bus/index.go:120-156 | then, whenever the log scan finds a key, the dedup check answers exactly as the scan does: in every state, with a send in flight or after any kill or power loss, and in whatever order either scans |
| IndexCoverage.IndexRefinesScan | internal/bus/index.go:120-156 | the same in every state of every run whose keyed sends have one recipient |
| IndexCoverage.RebuildRefinesMaintenance | internal/bus/index.go:62-118 | while keyed sends have one recipient, a rebuilt index equals the maintained one restricted to live records if and only if every live record has its row and no such row holds the key - |
| IndexCoverage.UniqueAnswer | internal/bus/index.go:35-36 | under the unique index an answer from the index names exactly one record |
| WaitRuns.ReachedUnlessAwaiting | internal/bus/index.go:158-179 | under a covering index every live record is reached unless its row is about to be inserted |
| WaitRuns.AwaitedIsHidden | internal/bus/index.go:101-118 | in every state, guarded or not, a record between its append and its row is in the log and hidden from the waiter for it: the comment's promise holds for returned sends only |
| WaitRuns.FastPathExactly | internal/bus/index.go:158-179 | under a covering index the fast path is exact for a mailbox if and only if none of its records awaits its row |
| WaitRuns.DeathHides | internal/bus/index.go:101-104 | a process that dies between an append and its row leaves a live record hidden from the waiter for it |
| WaitRuns.HidingEndsExactly | internal/bus/index.go:62-118 | a step that is not the rebuild of an open ends the hiding if and only if it inserts a later row of that mailbox and sender; a rebuild ends it when no two live records share a key |
| WaitRuns.StaysHidden | internal/bus/index.go:158-179 | through any run without such a step the record stays hidden |
| WaitRuns.WaitFastPathRefinesScan | internal/bus/index.go:158-179 | in every state of every guarded run, sends in flight included, each live record is reached or awaits its row, and the fast path is exact for a mailbox if and only if none of its records does |
| WaitRuns.WaitMissesOnlyUnreturned | internal/bus/mail.go:382-443 | a wait that runs beside the sends of a guarded run and times out: at every check, the last included, the log it read held no match, or every match that was there when it read the index was the pending record of a send that had not returned |
| KeyedBroadcast.BroadcastHidesRecord | internal/bus/index.go:158-162 | after every keyed send to two or more recipients the first one's record is live, a waiter wants it, and the fast path skips it, although the comment calls that impossible |
| KeyedBroadcast.BroadcastAnswerIsPartial | internal/bus/index.go:120-156 | every resend of such a key is answered with one delivery although the original listed all recipients |
| RetryRuns.RepeatsAreAnswered | internal/bus/mail.go:82-91 | in every run that forgets no key, whenever the lock is free: a send or a reply under a key that any record was sent with, by anybody and with whatever message, writes nothing and returns that record's id and only deliveries of its send |
| RetryRuns.RepeatsReturnTheOriginal | internal/bus/mail.go:221-269 | when moreover no send under the key has several recipients, it returns exactly the result the original send returned |
| RetryRuns.KilledBroadcastStaysPartial | internal/bus/mail.go:138-174 | when a keyed send dies after some recipients were served: in every run from there that forgets no key, no other mailbox ever gets a record with the key, and every send or reply under it writes nothing and names none of the unreached recipients |
| RetryRuns.RunCloses | internal/bus/index.go:12-21 | from any state in which nobody is sending under a key that was sent, no such run adds a record with it |
| RegistryLog.ReadBlockFields | internal/bus/registry.go:99-108 | the lines of a block become a field map, or nothing if one is not a header line |
| RegistryLog.ReadEvents | internal/bus/registry.go:92-128 | the parse loop yields exactly the complete blocks' events, dropping the others |
| RegistryLog.FoldRegistry | internal/bus/registry.go:132-170 | the in-place fold computes the specified state |
| RegistryLog.AliveIffLastRegistered | internal/bus/registry.go:132-170 | an agent is known exactly when it has a membership event, alive exactly when the last one is a register, and then under that event's role and time |
| RegistryLog.OtherEventsKeepMembership | internal/bus/registry.go:159-167 | status, heartbeat and unknown events change nobody's membership or role, and no other agent at all |
| RegistryLog.EventsStayInTheirPlace | internal/bus/registry.go:132-170 | no event changes another agent; status and heartbeat change one field of an alive agent and nothing else, and nothing at all for any other agent, as do unknown events |
| RegistryLog.ExpandRole | internal/bus/mail.go:109-119 | whatever the map order, the expansion is exactly the alive agents of the role, sorted and duplicate-free |
| RegistryLog.ExpansionIsUnique | internal/bus/mail.go:109-119 | that determines the recipient list |
| RegistryLaws.SplitAppend | internal/bus/registry.go:94 | what is appended to a closed log is cut into blocks of its own |
| RegistryLaws.AppendedIsReadBack | internal/bus/registry.go:206-238 | appending an event to a closed log appends exactly that event to its parse, up to fields its kind does not carry |
| RegistryLaws.Replay | internal/bus/registry.go:92-128 | the concatenated blocks of any clean events parse to those events |
| RegistryLaws.CarriedIsEnough | internal/bus/registry.go:132-170 | the fold never looks at a field the kind does not carry |
| RegistryLaws.AppendApplies | internal/bus/registry.go:172-238 | appending an event to the log applies it to the folded registry |
| RegistryLaws.AppendCloses | internal/bus/registry.go:206-238 | whatever the log held, a torn tail included, it ends with a closed block after an append |
| TornRegistry.NextEventAppliesExactly | internal/bus/registry.go:206-238 | for every strict prefix of every clean block: the next event is applied as written, whatever it is, if and only if the torn bytes are none, or end at a line break and hold no model line (nor, if events may lack a time, a ts line) |
| TornRegistry.TornFirstLine | internal/bus/registry.go:87-91 | a tear inside the first line loses the next event, although it is written whole |
| TornRegistry.TornLaterLine | internal/bus/registry.go:87-91 | a tear inside a later line turns the next event into one of the torn block's kind for the next event's agent |
| TornRegistry.TornAtBreak | internal/bus/registry.go:87-91 | after a tear at a line break the next event is applied as written but for the model and time it takes from the torn block where its own omits them |
| TornRegistry.TearInverts | internal/bus/registry.go:87-91 | an unregister behind a register torn inside a later line leaves its agent alive |
| TornRegistry.TearInvertsExample | internal/bus/registry.go:87-91 | for example behind `event: register`, `agent_id: a` and the four bytes `role` |
| TornReads.TornTailSpells | internal/bus/registry.go:92-128 | until the next append every read of the log sees one more event, the one the torn lines spell, or none if they spell none |
| TornReads.SpelledFacts | internal/bus/registry.go:98-116 | they spell one exactly when the unfinished line, if any, has its `: ` and at least one byte of the agent is there; it is of the torn kind and for as much of the agent as is there |
| TornReads.KeptField | internal/bus/registry.go:100-107 | each of its fields is what the block was to hold, whole, cut at the tear, or empty behind it |
| TornReads.TornTailIsDroppedExactly | internal/bus/registry.go:85-128 | for every strict prefix of every clean block: reads see nothing of it if and only if it ends in its first line, or in a line without `: `, or before the first byte of the agent |
| TornReads.TearIsAtomicExactly | internal/bus/registry.go:206-238 | for every tear of a stamped event: reads see nothing, or exactly the event as it was to be written, if and only if it is dropped or lacks at most the last two newlines |
| TornReads.TearIsHarmlessExactly | internal/bus/registry.go:87-91 | the torn block is dropped by reads and the next event is applied as written, whatever it is, if and only if nothing or exactly the first line with its newline was written |
| TornReads.WrongVictim | internal/bus/registry.go:114-127 | a tear inside the agent's id is read as an event of another agent, whose id is what is left: an unregister makes that one not alive and leaves the intended one as it was |
| TornReads.WrongVictimExample | internal/bus/registry.go:114-127 | for example an unregister of ab torn to `event: unregister`, `agent_id: a` |
| TornReads.RegisterIsReadEarly | internal/bus/registry.go:132-147 | a register torn behind its second line makes the agent alive at once, under as much of the role as is there, so that sends to the role miss it |
| TornReads.UnregisterIsTakenBack | internal/bus/registry.go:148-158 | an unregister torn behind its second line removes the agent on every read, and the next append, unless it is that agent's own register or unregister, leaves it as it was before |
| RegistryLaws.AgentsArePlain | internal/bus/registry.go:92-170 | whatever bytes the log holds, every agent it yields has a one-line id and role |
| Registry.Sanitize | internal/bus/registry.go:628-638 | the result is one line of the same length that differs only where a line break became a space |
| Registry.ValidIdGrows | internal/bus/registry.go:20 | exactly which ids are valid, grown character by character |
| Registry.ValidIdIsAFileName | internal/bus/registry.go:20 | a valid id holds no slash, colon, blank or line break and does not start with a dot |
| Registry.ProjectionStep | internal/bus/registry.go:240-268 | how each event changes the alive part of the registry, which is what the snapshots must follow |
| Registry.BuildBlock | internal/bus/registry.go:209-228 | the builder writes exactly the specified block, omitting the lines the kind or an empty value omits |
| RegistryLaws.BlockIs | internal/bus/registry.go:209-228 | the block line by line for every kind of event |
| Registry.Registry.ReadRegistryLog | internal/bus/registry.go:172-183 | returns the fold of the log |
| Registry.Registry.RequireAgent | internal/bus/registry.go:185-204 | the agent if alive, otherwise not-registered or removed |
| Registry.Registry.RequireMailbox | internal/bus/mail.go:364-376 | no_such_mailbox exactly when the agent is not alive |
| Registry.Registry.AppendEvent | internal/bus/registry.go:206-238 | on any log, the log grows by the event's block and is closed; on a closed log the registry becomes the old one with the event applied |
| Registry.Registry.Register | internal/bus/registry.go:308-349 | fails exactly on a bad id or empty role and then changes nothing; otherwise log and snapshot gain the sanitized agent; on a closed log the registry does too and nothing else changes, and a directory right for all other agents becomes coherent |
| Registry.Registry.Unregister | internal/bus/registry.go:351-374 | only a bad id fails; otherwise the event is written and the snapshot dropped; on a closed log the agent, known or not, is removed with its registration time kept, and a directory right for all other agents becomes coherent |
| Registry.Registry.SetStatus | internal/bus/registry.go:376-401 | fails exactly on a bad id, an empty status or an agent not alive, changing nothing, or behind a torn tail by dying of a nil agent with the event written; otherwise only that agent's status changes, in log and snapshot, and a directory right for all other agents becomes coherent |
| Registry.Registry.Heartbeat | internal/bus/registry.go:403-427 | the same for last_seen |
| Registry.Registry.RebuildSnapshots | internal/bus/registry.go:270-306 | from any directory contents the snapshots become exactly the alive part of the folded log |
| Registry.CoherenceRestored | internal/bus/registry.go:376-445 | once an agent's own file is rewritten as the registry has it, a directory right for all other agents is coherent |
| Registry.DeathBeforeSnapshot | internal/bus/registry.go:319-344 | a process that dies between its event and its snapshot loses coherence if and only if the event says something new, and for its own agent only |
| Registry.OthersLeaveSnapshot | internal/bus/registry.go:376-445 | events completed for other agents neither repair nor spoil an agent's snapshot |
| Bus.Bus.Deliver | internal/bus/mail.go:138-174 | the delivery loop leaves exactly the specified disk and list: per recipient the next seq, one appended record, one inserted row |
| Bus.Bus.SendLocked | internal/bus/mail.go:80-176 | a known key is answered, an unreadable log or an unknown recipient refused, with the disk unchanged; otherwise the disk and result are those of a send to exactly the expansion |
| Bus.Bus.Send | internal/bus/mail.go:42-78 | argument and sender errors in the source's order; every failure leaves the whole disk unchanged |
| Bus.SendArgsRefused | internal/bus/mail.go:42-65 | exactly which arguments are refused: a bad id, both or neither recipient, a kind other than the three |
| Bus.Bus.LookupRecordById | internal/bus/mail.go:271-301 | live log first, archive only on a miss, each with its parse error |
| Bus.LookupOutcomeIsLookup | internal/bus/mail.go:271-301 | on readable files that is the lookup compaction does not disturb |
| CallOutcomes.LookupTells | internal/bus/mail.go:271-301 | finds the first record with the id, live before archived, or none if neither file has it; fails exactly if the live log is corrupt, or lacks the id while the archive is corrupt |
| Bus.Bus.Reply | internal/bus/mail.go:221-269 | validation, sender, key and lookup in the source's order; every failure leaves the disk unchanged; otherwise a send of kind reply to the cited record's sender |
| Bus.Bus.CompactLocked | internal/bus/compact.go:72-140 | returns the archived count or the parse error and leaves exactly the specified disk; on readable files the leading records up to the bound have moved behind the archive's and the log keeps its other bytes, while counters, rows and every other file stay |
| Bus.Bus.Compact | internal/bus/compact.go:42-70 | the same behind its argument and membership checks, which change nothing |
| Bus.CompactMoves | internal/bus/compact.go:72-140 | a finished compaction of readable files has that outcome |
| Outcomes.CompactSplitsAtBound | internal/bus/compact.go:83-139 | on a log in seq order the log is left with exactly the records above the bound, the archive gains exactly the others, and the result counts them |
| Outcomes.CompactAgain | internal/bus/compact.go:39-41 | compacting again to the same bound returns 0 and changes nothing |
| Bus.ListMailboxAgents | internal/bus/bus.go:243-257 | lists every existing log once |
| Bus.MaxObservedId | internal/bus/bus.go:259-279 | the nested loops compute the largest id of any live record, 0 when there is none |
| Bus.BuildIndex | internal/bus/index.go:62-99 | the emptied table after inserting every record of every log in some order: every row is a live record's, and no two share a key |
| Bus.Bus.TruncateTails | internal/bus/bus.go:207-222 | every torn tail is cut; it fails exactly when some log is malformed, having cut nothing but torn tails |
| Bus.Bus.Recover | internal/bus/bus.go:203-231 | logs truncated, counter and index recomputed from them, seq counters and archives untouched; it fails exactly when some log is malformed |
| Outcomes.RecoverTells | internal/bus/bus.go:203-231 | a finished recovery keeps every record, leaves every log a prefix of itself on a record boundary, sets the counter to the largest live id, and leaves a table of live records only in which every unkeyed record and every key has a row; seq counters and archives stay |
| Bus.Bus.ReadMailbox | internal/bus/mail.go:321-362 | the errors in order; otherwise the sorted page, which on a log in seq order is the page itself: at most the limit (256 by default), each record above the cursor and of the kind, none left out below the limit |
| BusLaws.SendAppendsOneEach | internal/bus/mail.go:138-175 | a send appends to each recipient's log exactly one record, with the new id and that mailbox's next seq, and to no other log anything (dedup keys without a newline) |
| BusLaws.DeliveredInOrder | internal/bus/mail.go:139-175 | the returned list names the recipients in delivery order with the seqs of their records |
| BusLaws.ReplyAppendsOne | internal/bus/mail.go:221-269 | a reply to a record found in the caller's mailbox or archive, not answered from its key, appends exactly one record, in that record's sender's mailbox, of kind reply, citing the id, from the caller, under the returned id (dedup keys without a newline) |
| CallOutcomes.SendReaches | internal/bus/mail.go:92-176 | a send whose key is new reaches exactly the alive agents it names, by id or role, and fails without a trace if there is none; each gets one record with the new id, its next seq, the caller's registered id and role and the arguments as given, dedup_id included; the result names exactly them, their rows are inserted, and nobody else's log or seq changes (dedup keys without a newline) |
| CallOutcomes.SendFailsExactly | internal/bus/mail.go:80-131 | a send with good arguments fails exactly if its key has no row and some log is corrupt, or if the key is new and nobody alive is meant; then, and when it is answered from its key, nothing is written |
| CallOutcomes.FirstSend | internal/bus/mail.go:121-152 | in an empty root the first send is given id 1 and seq 1 everywhere |
| CallOutcomes.KeyIsTaken | internal/bus/mail.go:82-91 | after a send with a dedup_id, any send or reply with the same dedup_id, by any agent and with any other arguments, writes nothing and returns the first one's id, and its whole result if that had one recipient |
| CallOutcomes.ReplyReaches | internal/bus/mail.go:221-269 | a reply whose key is new, on readable files: in_reply_to_not_found without a trace if the caller's mailbox and archive hold no such record; otherwise one record of kind reply, citing the id, in the mailbox of the sender of the first such record, live before archived, or recipient_unknown without a trace if that sender is not alive (dedup keys without a newline) |
| BusLaws.RetryIsAnswered | internal/bus/mail.go:82-91 | a retry with the key of a completed send, with any message and recipients, returns the original id and writes nothing; for a single recipient it returns the original result |
| BusLaws.SendRefinesProtocol | internal/bus/mail.go:80-176 | every completed send either changes nothing or is a run of the step machine ending in its disk and its receipt (dedup keys without a newline) |
| BusLaws.CompactRefinesProtocol | internal/bus/compact.go:72-140 | every completed compaction is the archive step followed by the rewrite step of the step machine, or no step when nothing is cut off |
| BusLaws.RecoverRefinesProtocol | internal/bus/bus.go:203-231 | every completed recovery, in whatever orders it visits the logs, is a run of the step machine |
| BusLaws.MaxIdAnyOrder | internal/bus/bus.go:261-279 | the observed maximum does not depend on directory order |
| BusLaws.RecoverTwice | internal/bus/bus.go:155-159 | recovering again changes neither logs nor counter, and rebuilds the same index when it visits the logs in the same order |
| CallerKeys.SendBytes | internal/bus/mail.go:138-169 | whatever the key, a send appends exactly one encoding to each recipient's log |
| CallerKeys.KeySurvivesExactly | internal/bus/record.go:54-58 | a send adds its record to each recipient's log if and only if the key has no newline, and with the key it was sent with if and only if the key is not - either |
| CallerKeys.RegisteredSendSurvives | internal/bus/mail.go:133-169 | for every registered sender: the record reaches the log with the sender's id and role and the arguments as given if and only if the caller's dedup_id has no newline and is not - |
| CallerKeys.RecoveryForgetsDash | internal/bus/bus.go:188-231 | no recovery of any disk leaves the key - known |
| CallerKeys.DashIsSentAgain | internal/bus/index.go:12-21 | a send with key - makes it known, one plain recovery forgets it, and the next send with it is carried out again |
| CallerKeys.NewlineKeyBreaksLog | internal/bus/record.go:113-122 | after a send with a key whose second line is no header line every recipient's log is unreadable, so recovery fails |
| CallerKeys.NewlineExample | internal/bus/record.go:113-122 | for example the key `k`, newline, `x` |
| CallerKeys.NewlineKeyRenumbers | internal/bus/record.go:113-122 | a key whose second line reads `seq: m` stores the record under seq m, whatever m, and under a shorter key |
| Pusher.PushedRises | internal/bus/push.go:151-166 | whatever the log holds, the seqs pushed in one scan strictly increase from above the mark to at most the new mark |
| Pusher.PassedIsLast | internal/bus/push.go:151-169 | on a log in seq order the new mark is the larger of the old one and the last seq |
| Pusher.PushedIsComplete | internal/bus/push.go:151-166 | on a log in seq order exactly the records above the mark with a known recipient are pushed |
| Pusher.NothingFound | internal/bus/push.go:140-150 | a missing or malformed log pushes nothing and keeps its mark |
| Pusher.TickRises | internal/bus/push.go:134-172 | the same strict increase over a whole tick, per mailbox |
| Pusher.TickIsComplete | internal/bus/push.go:134-172 | a tick that is not cut short pushes, of each log in seq order, exactly the records above the old mark with a known recipient, and sets the mark to the larger of its old value and the last seq |
| Pusher.ChannelPusher.SetWatermark | internal/bus/push.go:217-223 | a mark only rises |
| Pusher.ChannelPusher.MaxSeq | internal/bus/bus.go:119-132 | the last complete record's seq, none for a malformed or empty log |
| Pusher.ChannelPusher.SeedWatermarks | internal/bus/push.go:126-132 | every log that has a record gets its last seq as mark, every other mark stays |
| Pusher.ChannelPusher.PushMailbox | internal/bus/push.go:151-169 | one mailbox of a tick; when the sink dies a prefix was pushed and the mark is unchanged |
| Pusher.ChannelPusher.Tick | internal/bus/push.go:134-172 | true: everything the tick owes was pushed and the marks moved; false: the sink is dead and a prefix was pushed |
| Pusher.ChannelPusher.Loop | internal/bus/push.go:103-124 | seeded from the logs and run over any ticks: the seqs pushed per mailbox strictly increase and are above the last seq its log had at the start, so no record is pushed twice and none from before |
| Pusher.ChannelPusher.RunTicks | internal/bus/push.go:109-124 | over any ticks, with any sends, compactions and recoveries between and during them, the seqs pushed per mailbox strictly increase from above its mark |
| Pusher.PassedForGood | internal/bus/push.go:156-161 | a record whose recipient a tick does not know is pushed neither by that tick nor by any later one |
| PushDelivery.FoundInOrder | internal/bus/push.go:140-150 | what a tick reads of a reachable state is the mailbox's records, in seq order, addressed to its owner |
| PushDelivery.MailOfAliveAgentsIsPushed | internal/bus/bus.go:83-105 | with coherent snapshots a completed tick pushes exactly the unseen mail of every alive agent, through whichever process it registered |
| PushDelivery.MailOfNotedAgentsIsPushed | internal/bus/bus.go:83-105 | a new record is pushed exactly if this process has noted its recipient or a snapshot of it exists |
| PushDelivery.LostSnapshotLosesPushes | internal/bus/bus.go:83-105 | a process that dies between an agent's register event and its snapshot leaves the agent alive but its mail passed over for good by every pusher that has not noted it |
| PushRuns.PushesDrainTheRun | internal/bus/push.go:103-172 | from the seeding on, however completed ticks that know the mailbox's owner are interleaved with sends, deaths, opens and compactions up to the mark: what was pushed of the mailbox is, in order and each exactly once, what was sent to it after the seeding up to the mark |
| PushRuns.TickCatchesUp | internal/bus/push.go:134-172 | and right after a tick that visited it, everything sent to it since the seeding |
| PushRuns.SeedingSeeds | internal/bus/push.go:126-132 | the marks the seeding leaves are the ones these start from |

## Left out

- Preservation.StepKeeps: only mailbox appends can be torn, and only by a power loss; counter, seq and
  registry writes, the archive append and the log rewrite are atomic, because the code truncates and rewrites those files in
  place and its recovery does not repair them. Keys with a newline are excluded, here and below: after such a send the statement is false (CallerKeys.NewlineKeyBreaksLog, CallerKeys.NewlineKeyRenumbers).
- Preservation.BeginSendKeeps: keys without a newline, as above.
- Preservation.LosePowerKeeps: the tear leaves a prefix of the append in progress; writes that returned are durable (fsync on) and bytes never arrive out of order.
- Runs.RunKeeps: runs whose dedup keys have no newline, as above.
- Runs.ReachableInv: runs whose dedup keys have no newline, as above.
- Runs.DiskIsSound: runs whose dedup keys have no newline, as above.
- Runs.SharingMeansOneSend: runs whose dedup keys have no newline, as above.
- Runs.NoAcceptedMessageIsLost: runs whose dedup keys have no newline; the record it speaks of is the one in the log, which holds a key `-` as no key.
- Runs.SendIsRun: keys without a newline, as above.
- KeyedSends.StepKeepsKeysExactly: keys without a newline, as above.
- KeyedSends.KeyedSendsTakeEffectOnce: keys without a newline, as above.
- KeyedSends.OnceIsKeptExactly: keys without a newline, as above.
- CallOutcomes.SendReaches: keys without a newline, as above; so CallOutcomes.ReplyReaches.
- RetryRuns.RepeatsAreAnswered: runs whose dedup keys have no newline, as above; so are the other statements of that file.
- BusLaws.SendAppendsOneEach: keys without a newline, as above; what any key does to the bytes is CallerKeys.SendBytes.
- BusLaws.ReplyAppendsOne: keys without a newline, as above.
- BusLaws.SendRefinesProtocol: keys without a newline, as above; Bus.Bus.Send itself is proved for every key.
- Bus.Bus.SendLocked: counters are numbers here, so an unparseable or negative counter file, or an I/O error in the middle of a broadcast, is not modelled; reading and writing a counter file's text is proved apart (Text.CounterRoundTrip).
- Reading.WaitForMessage: an unreadable log counts as no match, as in the code; argument checks, cancellation, sleeping, file watchers and the deadline's real time are not modelled.
- Pusher.ChannelPusher.Loop: a read sees whole writes of other processes, not the moment between the truncation and the write of a log rewrite; the pushed text and its metadata are left out.
- PushRuns.PushesDrainTheRun: ticks that complete and can read the mailbox; a tick cut short by a dead sink ends the pusher, which has then pushed a prefix (Pusher.ChannelPusher.Tick).
- Codec.ParseOneRecord: the timestamp check is the shape of a UTC date-time (section 5.6 of RFC 3339) without calendar ranges, zone offsets or fractions; integers are unbounded where Go's are 64 bits wide.
- Text.CounterRoundTrip: trims ASCII white space only.
- The index is always open and its queries do not fail; the fallback to the log scan on a failed query is not modelled.
- SQLite beyond insert-or-replace, delete and select; flock internals beyond one holder released on death; fsync and directory sync; file permissions; root discovery and layout creation.
- list_agents, whoami, get_agent, liveness windows and record views: easy members over the same fold and log.
- The MCP server, its tool schemas and argument decoding, prompts and examples.
