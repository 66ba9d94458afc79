# Verified model of the agent gateway's durable state

This project models three parts of the gateway that keep durable state or decide authority, and
proves what they promise over whole runs.

**The session log.** `Storage.dfy` describes the log on disk: an active file, rotated segments and a
manifest, and every small durable write an operation makes. A crash is a `Cut`: any byte prefix of the
write in flight, or a stop between rename, sidecar, manifest and active re-creation. `StorageRuns.dfy`
proves that every run, stopped anywhere any number of times and with failed terminal pairs anywhere,
keeps exactly what was made durable, in order and with rising numbers, and says exactly when those
numbers are 1..n; `GapRuns.dfy` shows for every rotation limit a run where they are not. `FileRuns.dfy`
says which file each record lies in and bounds every file over every run. Records have a small concrete
byte encoding (`Json.dfy`, `Records.dfy`), so "no proper prefix of a record parses" is proved. The
readers (`Lines.dfy`, `Query.dfy`, `Views.dfy`, `Paging.dfy`, `StrictScan.dfy`) and the offset cache
(`OffsetCache.dfy`) are shown to answer exactly what a plain filter of all entries would, `Answers.dfy`
says what that filter selects in terms of an entry's own fields, and `SessionLog.dfy` puts them together
in one class.

**The approval ledger and its delivery outbox.** `ApprovalLedger.dfy` gives each write transaction of
the approval tables as a function; `LedgerRuns.dfy` proves what each keeps, and `LedgerGuarantees.dfy`
what whole runs guarantee. Two families of results tie the transactions to the calls of a run.
Provenance: every row of every table traces to a call that carried exactly its contents
(`LedgerProvenance.dfy`, `OriginRuns.dfy`, `DecisionRuns.dfy`). Entitlement: in every reachable ledger a
call succeeds if and only if plain conditions on the tables hold, and then writes exactly what it
carried (`ExecutionRuns.dfy`, `CaptureRuns.dfy`, `GrantRuns.dfy`, `Reissues.dfy`). `DeniedReissue.dfy`
treats re-issues of refused calls. `ApprovalStore.dfy` is the store as a class whose methods are proved
against those transactions. `DeliveryOutbox.dfy`, `OutboxRuns.dfy`, `OutboxProvenance.dfy` and
`DeliveryStore.dfy` do the same for the outbox; `DeliveryRuns.dfy` gives the life of one delivery and
says exactly which deliveries can still reach their run. `JointRuns.dfy` runs ledger and outbox as one
database. `Publication.dfy` adds reservations and shows that split-phase publication refines the local
atomic append; `ServiceRuns.dfy` composes ledger, outbox and reservations, and `PublicationClient.dfy`
holds the service and client objects.

**Admission.** `Admission.dfy` models how a child's authority derives from its parent's and proves
claims by induction over lineages of any length.

Five promises turned out to hold only under a condition; each has a counterexample that a run reaches
and an exact condition:

- A failed terminal pair restores the active bytes in every case, but when the manifest had already
  been raised the next append skips two sequence numbers. The log is then no longer 1..n, and the
  strict reader refuses a log the indexed reader still answers (`FailedPairNumbering`,
  `RunsContiguousIff`, `RunsScanIff`); for every rotation limit some run from an empty directory gets
  there (`FailedPairLeavesGap`, `GapIsRefused`, `EveryLimitCanGap`).
- At most one completion exists per event id exactly when no terminal pair wrote a completion whose id
  was taken, because only a single append looks for a stored one (`RunsKeepCompletionsIff`,
  `PairCanRepeatCompletion`). Pairs of recap and detach events never do (`RunsKeepCompletionsOnce`).
- No lookup through the offset cache skips an entry exactly when every completion report follows an
  undisturbed note of its file's newest entry; a reader of an older file state in between breaks it
  (`RunsNeverSkipIff`, `DisturbedScanSkipsEntries`).
- An immediate retry of a re-issue returns the same successor exactly when the re-issue expired the
  approval it names, or that one already claimed so; otherwise it is refused (`ImmediateRetry`,
  `RetryCanBeRefused`).
- The audit receipt's compare-and-set fails exactly for a row quarantined before the receipt landed
  (`ConstraintsNeverTrip`, `LateAuditFails`).

Integers are unbounded except where the program bounds them: segment names hold twelve-digit
sequences and six-digit generations, and the delivery counter stops below the largest SQLite integer.
Clock readings, nonces, identifiers, tool resolution and network behaviour are inputs. A mutex-protected
block or an immediate transaction is one step.

In the table below, a row that begins "side fact" follows shortly from a definition or from another row;
it is there for the reader of the code and is not one of the main results.

## Model

| member | source | states |
|---|---|---|
| `Json.RoundTrip` | agent_gateway/agent_session_log_records.py:191-197 | parsing undoes encoding, for every value and whatever follows |
| `Json.NoProperPrefixParses` | agent_gateway/agent_session_log_records.py:200-231 | no proper prefix of an encoded value is a complete value |
| `Json.NoNewline` | agent_gateway/agent_session_log_records.py:191-197 | an encoded value is a single line |
| `Records.EntryRoundTrip` | agent_gateway/agent_session_log_records.py:191-231 | a written record reads back as its entry, with or without its newline |
| `Records.StrictRoundTrip` | agent_gateway/agent_session_log.py:1713-1752 | the strict parser reads back every record an append writes |
| `Records.StrictAgrees` | agent_gateway/agent_session_log.py:1713-1765 | side fact: the strict parser reads an entry exactly where the lenient one does, its sequence is positive and no object repeats a key; torn and blank lines are the same for both |
| `Records.PartialRecordIsTorn` | agent_gateway/agent_session_log_records.py:200-231 | a proper prefix of a record reads as torn, however much white space follows |
| `Records.OwnTextIsFound` | agent_gateway/agent_session_log_records.py:290-297 | a field's own text is found by the lower-cased search over nested values |
| `Lines.EntriesConcat` | agent_gateway/agent_session_log.py:1767-1811 | scanning two parts at a line boundary is scanning the whole |
| `Lines.EntriesOfEncodeAll` | agent_gateway/agent_session_log.py:1404-1422 | a file holding exactly the encodings of some entries reads back as those entries |
| `Lines.IterLinesReverse` | agent_gateway/agent_session_log_records.py:234-255 | for every content and chunk size: the non-empty newline-split lines reversed, only the first yielded flagged last |
| `Lines.YieldReversed` | agent_gateway/agent_session_log_records.py:234-255 | one chunk's complete lines come out last first |
| `Lines.ReverseReaderAgrees` | agent_gateway/agent_session_log_records.py:234-255 | the reverse reader's lines hold the forward scan's entries, last first |
| `Lines.LatestSeqFromHandle` | agent_gateway/agent_session_log.py:1877-1891 | the newest sequence read from the end equals the last entry of a forward scan |
| `Lines.SeqBoundsForFile` | agent_gateway/agent_session_log.py:2972-3008 | first and last sequence of a file, both zero without entries |
| `Lines.SeqRangeForFile` | agent_gateway/agent_session_log.py:2934-2970 | one forward pass finds the same bounds |
| `TailRecovery.FindTailStart` | agent_gateway/agent_session_log.py:3143-3189 | the backward scan finds the last unterminated line's start, the same for every chunk size |
| `TailRecovery.RecoverTornActiveTail` | agent_gateway/agent_session_log.py:3143-3189 | the recovery an opener runs yields exactly the recovered bytes |
| `TailRecovery.RecoveryIsSafe` | agent_gateway/agent_session_log.py:3143-3189 | on any bytes: leaves whole lines only, is idempotent, keeps every terminated line |
| `TailRecovery.TailIsAdopted` | agent_gateway/agent_session_log.py:3143-3189 | what follows the last newline is adopted whole exactly when the strict parser reads an entry in it or finds it blank, and otherwise goes whole |
| `TailRecovery.CrashedAppendRecovers` | agent_gateway/agent_session_log.py:1404-1422 | for any surviving byte prefix of an append, recovery yields the old file plus a whole-record prefix of the new entries |
| `TailRecovery.CrashedAppendReads` | agent_gateway/agent_session_log.py:809-840 | a reader sees those survivors before and after recovery alike |
| `Completions.PrefilterKeepsMatches` | agent_gateway/agent_session_log.py:1353-1395 | the text prefilter over nested values never hides a completion with the same id |
| `Completions.SameCompletionIff` | agent_gateway/agent_session_log.py:600-617 | a stored completion is the same one if and only if it names its id and fingerprint and every field but the timestamp reads the same |
| `StorageRuns.RepairNeverRefuses` | agent_gateway/agent_session_log.py:3191-3308 | repair never gives up on a log its own writer left behind, gaps included |
| `StorageRuns.RepairRestores` | agent_gateway/agent_session_log.py:3191-3308 | repair keeps every entry, lists exactly the files, and leaves the highest mark that files or manifest knew |
| `StorageRuns.RotationKeeps` | agent_gateway/agent_session_log_rotation.py:66-134 | every stop inside a rotation leaves the log complete and readable |
| `StorageRuns.WriteKeeps` | agent_gateway/agent_session_log.py:1338-1428 | whatever prefix of an append reaches the disk, the log keeps rising, grows by whole records, and its mark moves by exactly those |
| `StorageRuns.NextSequenceIsMark` | agent_gateway/agent_session_log.py:1877-1891 | the next append continues from the higher of the manifest's mark and the last entry |
| `StorageRuns.StepKeeps` | agent_gateway/agent_session_log.py:1338-1428 | any operation stopped anywhere loses, alters and reorders nothing; what it adds is numbered from the mark, which moves by exactly that, plus two for a failed pair that had raised the manifest |
| `StorageRuns.RunsKeepEverything` | agent_gateway/agent_session_log.py:3191-3308 | over every run, failed pairs included, with any number of crashes: segments in name order then the active file hold exactly what was made durable, rising from 1; repair never refuses and reopening keeps it all; the next number is the count plus two per failed pair that had raised the manifest |
| `StorageRuns.RunsContiguousIff` | agent_gateway/agent_session_log_rotation.py:66-144 | the log of a run is exactly 1..n if and only if nothing was written after a failed pair that had raised the manifest |
| `StorageRuns.CompletedAppendAdds` | agent_gateway/agent_session_log.py:1396-1428 | a completed append adds exactly its entry with the number after the mark |
| `FileRuns.AppendFiles` | agent_gateway/agent_session_log_rotation.py:66-134 | a completed append goes into the active file if that is within the limit, leaving every segment alone; otherwise the old file becomes a segment with exactly its bytes and the record starts a new one |
| `FileRuns.PreparedFiles` | agent_gateway/agent_session_log_rotation.py:66-134 | the segment a rotation adds holds the active file's bytes and is named for its first and last record; the manifest then lists it under the next generation |
| `FileRuns.SegmentsAreFull` | agent_gateway/agent_session_log_rotation.py:66-134 | over every run from an empty directory, crashes and failed pairs included, every segment is larger than the limit, and no file exceeds it by more than its last write |
| `FileRuns.RepairedManifestSays` | agent_gateway/agent_session_log.py:3191-3308 | the repaired manifest lists every segment, says the first and highest sequence, and holds a generation no segment was named with |
| `StorageRuns.FailedPairNumbering` | agent_gateway/agent_session_log.py:789-845 | a failed pair restores the active bytes; the next number is unchanged if and only if the manifest had not been replaced or there was none |
| `GapRuns.FailedPairLeavesGap` | agent_gateway/agent_session_log_rotation.py:137-144 | the counterexample, a run from an empty directory under any rotation limit its first record exceeds: one entry, a pair rolled back after raising the manifest, one more entry, and the log reads 1, 4 |
| `StorageRuns.RunsKeepCompletionsIff` | agent_gateway/agent_session_log.py:1338-1395 | after every run from any sound log, failed pairs and gaps included: at most one completion exists per event id if and only if that held at the start and no terminal pair wrote a completion whose id was taken |
| `StorageRuns.RunsKeepCompletionsOnce` | agent_gateway/agent_session_log.py:1353-1395 | hence, from an empty directory and with pairs of recap and detach events, at most one completion exists per event id after every run |
| `GapRuns.PairCanRepeatCompletion` | agent_gateway/agent_session_log.py:789-845 | the counterexample: a pair given one completion twice logs it twice, as 1 and 2, since nothing is looked up |
| `StorageRuns.RepeatedCompletionWritesNothing` | agent_gateway/agent_session_log.py:1353-1395 | appending a completion whose id is logged writes no entry, at any cut |
| `StrictScan.ScanCurrentStrict` | agent_gateway/agent_session_log.py:1577-1668 | the line-by-line scan of all files computes exactly the specified scan |
| `StrictScan.ScanFile` | agent_gateway/agent_session_log.py:1577-1668 | the loop over one file continues the scan state exactly |
| `StrictScan.ScanAcceptsExactly` | agent_gateway/agent_session_log.py:1577-1668 | accepts if and only if at most one newline-terminated line is torn and the rest are well-formed consecutive positive sequences |
| `StrictScan.AcceptedScan` | agent_gateway/agent_session_log.py:1577-1668 | on acceptance the output increases strictly and every missing sequence lies strictly inside the quarantined line's gap |
| `StrictRuns.SettledScan` | agent_gateway/agent_session_log.py:1577-1668 | the strict scan of a repaired log finds no damage, and accepts it with every entry if and only if it is numbered 1..n |
| `StrictRuns.RunsScanIff` | agent_gateway/agent_session_log.py:1642-1652 | after any run the strict scan of the reopened log reads everything made durable, or refuses it; it refuses if and only if something was written after a failed pair that had raised the manifest |
| `GapRuns.GapIsRefused` | agent_gateway/agent_session_log.py:1642-1652 | that log reading 1, 4 is refused by the strict scan, under any limit its first record exceeds |
| `GapRuns.EveryLimitCanGap` | agent_gateway/agent_session_log.py:1942-1954 | for every rotation limit some run from an empty directory leaves a log reading 1, 4 that the strict scan refuses |
| `OffsetCache.ActiveFileOffsetCache.Refresh` | agent_gateway/agent_session_log_cache.py:18-79 | a change of file identity forgets everything, the same identity keeps it |
| `OffsetCache.ActiveFileOffsetCache.StartingOffsetForSeq` | agent_gateway/agent_session_log_cache.py:18-79 | refreshes, then returns the specified start offset |
| `OffsetCache.ActiveFileOffsetCache.Update` | agent_gateway/agent_session_log_cache.py:18-79 | notes an offset and raises the highest noted sequence, keeping older offsets |
| `OffsetCache.ActiveFileOffsetCache.MarkComplete` | agent_gateway/agent_session_log_cache.py:18-79 | marks the cache complete only under its current identity |
| `OffsetCache.ActiveFileOffsetCache.Clear` | agent_gateway/agent_session_log_cache.py:18-79 | forgets everything |
| `OffsetCache.StartNeverSkips` | agent_gateway/agent_session_log_cache.py:18-79 | from a sound cache the start is a line start or the end, and every entry before it is older than asked for |
| `OffsetCache.NeverSkipsIff` | agent_gateway/agent_session_log_cache.py:18-79 | with honest notes, no lookup skips an entry if and only if the cache is not marked complete over an entry beyond its reach |
| `OffsetCache.CarriedIff` | agent_gateway/agent_session_log_cache.py:18-79 | the cache holds a file's newest entry if and only if it was noted and nothing disturbed it since |
| `OffsetCache.StepSoundIff` | agent_gateway/agent_session_log_cache.py:18-79 | a step breaks a sound cache if and only if it reports a file complete whose newest entry the cache does not hold |
| `OffsetCache.RunsNeverSkipIff` | agent_gateway/agent_session_log.py:1774-1810 | over every interleaving of readers on a fresh cache, no lookup ever skips an entry it asked for if and only if each completion report follows an undisturbed note of its file's newest entry |
| `OffsetCache.DisturbedScanSkipsEntries` | agent_gateway/agent_session_log.py:1774-1810 | the counterexample: a reader of an older state in between makes the cache skip the file |
| `Query.QueryAscFile` | agent_gateway/agent_session_log.py:1767-1811 | the forward read of a file from the cached offset with early break adds exactly the wanted entries up to the limit, and keeps the cache sound |
| `Query.QueryDescFile` | agent_gateway/agent_session_log.py:1828-1852 | the reverse read adds exactly the wanted entries, newest first, up to the limit |
| `Query.SelectReversed` | agent_gateway/agent_session_log.py:1813-1852 | selecting commutes with reading backwards |
| `Views.ListedViews` | agent_gateway/agent_session_log.py:3310-3344 | the manifest rows with their files become views; a row whose file is missing gives none, where the source raises |
| `Views.SortByFirst` | agent_gateway/agent_session_log.py:3310-3344 | the views in order of first sequence, none lost or added, equal ones in the order they came |
| `Views.SegmentView` | agent_gateway/agent_session_log.py:3310-3344 | the pruning view a query uses |
| `Views.SettledViews` | agent_gateway/agent_session_log.py:3310-3344 | on a repaired log the view is the files in order with exact bounds |
| `Repair.RowsKnown` | agent_gateway/agent_session_log.py:3191-3308 | whether every manifest row has its segment file |
| `Repair.FindMisfit` | agent_gateway/agent_session_log.py:3191-3308 | finds a file whose name disagrees with its contents if there is one |
| `Repair.CollectRows` | agent_gateway/agent_session_log.py:3191-3308 | rows, newest and oldest sequence and next generation from one pass |
| `Repair.RepairFiles` | agent_gateway/agent_session_log.py:3191-3308 | the repair loop rebuilds exactly the specified sidecars and manifest, or refuses exactly when specified |
| `Paging.NextPageContinues` | agent_gateway/agent_session_log.py:1478-1551 | following a page's cursor leaves exactly the rest of the unpaged answer |
| `Paging.AllPages` | agent_gateway/agent_session_log.py:1478-1551 | following cursors until none is returned ends and concatenates to the unpaged answer, in both orders |
| `Paging.StrictFetch` | agent_gateway/agent_session_log.py:1430-1452 | the list or bounded deque of the strict reader holds exactly the page to fetch |
| `Paging.StrictPagesAgree` | agent_gateway/agent_session_log.py:1430-1551 | strict paging concatenates to its unpaged answer, and equals indexed paging where nothing is hidden |
| `Paging.PagesReverse` | agent_gateway/agent_session_log.py:1504-1545 | side fact: every page newest-first, at any page size, concatenates to the reverse of every page oldest-first, at any other |
| `Answers.AnswerIff` | agent_gateway/agent_session_log_records.py:256-287 | the whole answer, in either order and at any page size, holds an entry if and only if sequence, time window, type, tool name, tool call, sub-agent, runner, role, text and error are as asked, told on the entry's own fields; each once and in order |
| `Answers.OneCriterion` | agent_gateway/agent_session_log_records.py:256-287 | each criterion on its own selects exactly the entries whose own field or number meets it |
| `Answers.FieldTextIff` | agent_gateway/agent_session_log_records.py:290-297 | the text search finds an event if and only if some string nested in it mentions the text, capitals read as small letters |
| `SessionLog.AgentSessionLog.constructor` | agent_gateway/agent_session_log.py:625-704 | opening what a predecessor left repairs it and keeps every entry |
| `SessionLog.AgentSessionLog.RepairManifest` | agent_gateway/agent_session_log.py:3191-3308 | leaves exactly the repaired disk |
| `SessionLog.AgentSessionLog.RotateIfNeeded` | agent_gateway/agent_session_log_rotation.py:66-134 | rotates exactly when the active file is full, or reports that it cannot |
| `SessionLog.AgentSessionLog.LatestSeq` | agent_gateway/agent_session_log.py:1877-1891 | the sequence the next append continues from |
| `SessionLog.AgentSessionLog.WriteBytes` | agent_gateway/agent_session_log.py:1404-1422 | appends whole records to the active file |
| `SessionLog.AgentSessionLog.RaiseManifest` | agent_gateway/agent_session_log_rotation.py:137-144 | the manifest's mark only moves up |
| `SessionLog.AgentSessionLog.NoteEntries` | agent_gateway/agent_session_log.py:1913-1925 | telling the cache where each new record begins keeps it sound |
| `SessionLog.AgentSessionLog.FinishAppend` | agent_gateway/agent_session_log.py:1396-1428 | rotates, numbers, writes and notes; every entry is kept and the new ones follow from the mark |
| `SessionLog.AgentSessionLog.Append` | agent_gateway/agent_session_log.py:1338-1428 | a new entry is added with the next number; an equal stored completion is returned and nothing written; a different one is refused |
| `SessionLog.AgentSessionLog.CompareStored` | agent_gateway/agent_session_log.py:600-617 | already stored exactly when every stored completion has the same canonical content |
| `SessionLog.AgentSessionLog.AppendTerminalPair` | agent_gateway/agent_session_log.py:789-845 | both records in one write with consecutive numbers, or a rollback that keeps every entry and restores the bytes |
| `SessionLog.AgentSessionLog.WriteAndTruncate` | agent_gateway/agent_session_log.py:818-840 | the failing write and its rollback leave the file as it was and the manifest raised or not |
| `SessionLog.AgentSessionLog.StoredCompletions` | agent_gateway/agent_session_log.py:1353-1395 | the lookup through the text index finds every completion with the event's id |
| `SessionLog.AgentSessionLog.QueryAsc` | agent_gateway/agent_session_log.py:1553-1575 | ascending read with pruning and cache equals the plain filter |
| `SessionLog.AgentSessionLog.QueryDesc` | agent_gateway/agent_session_log.py:1813-1826 | descending read equals the plain filter reversed |
| `SessionLog.AgentSessionLog.Query` | agent_gateway/agent_session_log.py:1454-1551 | every page equals the page of the plain filter of the whole log |
| `SessionLog.AgentSessionLog.QueryCurrentStrict` | agent_gateway/agent_session_log.py:1430-1452 | answers the page over the visible entries if and only if the log is numbered 1..n, and refuses a log with a gap |
| `SessionLog.StrictPage` | agent_gateway/agent_session_log.py:1454-1551 | over any files: refused exactly when the scan cannot accept them, otherwise the page of the well-formed visible entries, with the quarantined line reported exactly when there is one |
| `ApprovalPolicy.ConstrainIsIdempotent` | agent_gateway/approval_policy.py:657-697 | side fact: constraining a decision twice changes nothing more |
| `ApprovalPolicy.ReuseAuthorizedIff` | agent_gateway/approval_policy.py:657-752 | side fact: exactly when an applied decision authorizes reuse: never if disabled, only on the exact key if exact |
| `ApprovalPolicy.ApplyKeepsIdentity` | agent_gateway/approval_policy.py:733-752 | side fact: applying a decision keeps the frozen identity, the decision state and validity |
| `ApprovalPolicy.AppliedDecision` | agent_gateway/approval_policy.py:657-752 | side fact: the policy, authorization, grant reference and scope an applied decision records, by reuse mode |
| `LedgerRuns.ParkGood` | agent_gateway/approval_store.py:3138-3227 | parking keeps the invariant and never removes or alters a claimed call |
| `LedgerRuns.VoteGood` | agent_gateway/approval_store.py:4225-4301 | a vote keeps the invariant and never meets a conflicting one |
| `LedgerRuns.UpdateGood` | agent_gateway/approval_store.py:3770-3838 | rewriting descriptive columns keeps every captured call in agreement |
| `LedgerRuns.SupersedeGood` | agent_gateway/approval_store.py:2299-2429 | replacing a prepared plan keeps the invariant and every claimed call |
| `LedgerRuns.StoredBindingVerifies` | agent_gateway/approval_store.py:3429-3524 | a stored binding read by its own identity verifies and is returned |
| `LedgerGuarantees.StepGood` | agent_gateway/approval_store.py:2994-3941 | every transaction keeps the invariant and only evolves the tables |
| `LedgerGuarantees.Run` | agent_gateway/approval_store.py:2994-4301 | every ledger a run of transactions can reach satisfies the invariant |
| `LedgerGuarantees.RunEvolves` | agent_gateway/approval_store.py:2994-4301 | between any two points of any run the tables only evolve |
| `LedgerGuarantees.AtMostOneClaim` | agent_gateway/approval_store.py:3548-3605 | each job and tool call is successfully claimed at most once in any run |
| `LedgerGuarantees.ClaimIsAuthorized` | agent_gateway/approval_store.py:3548-3605 | that claim found its request executable at the claimed version, under the constraint and owner it carried at every earlier point |
| `LedgerGuarantees.TakenCallsAreKept` | agent_gateway/approval_store.py:3607-3672 | a claimed or completed binding is never deleted or replaced and a result never changes |
| `LedgerGuarantees.BindingsAlwaysVerify` | agent_gateway/approval_store.py:3429-3497 | in every reachable ledger each binding agrees with its request and reads back by its own identity |
| `ExecutionRuns.ClaimIff` | agent_gateway/approval_store.py:3548-3605 | in any reachable ledger an attempt is reserved if and only if the very capture is stored unclaimed and its request was approved at that version as its constraint demands; a result is answered if and only if it is the row's own |
| `ExecutionRuns.CompleteIff` | agent_gateway/approval_store.py:3607-3672 | a completion succeeds if and only if the row is claimed under its token and version, or already holds the same result; the row then holds exactly that result |
| `ExecutionRuns.ResultsWereReturned` | agent_gateway/approval_store.py:3607-3672 | every completed row holds the result some call of the run returned for this very capture, claimed under the row's token and version |
| `ExecutionRuns.ResultIsAnswered` | agent_gateway/approval_store.py:3548-3672 | once completed, every later claim answers exactly that result and another result is refused, at any later point |
| `OriginRuns.CapturesWereRecorded` | agent_gateway/approval_store.py:2994-3227 | every row holds the call, tenant, tool and operands that some record or park of the run carried, for its approval or one a later re-issue drew |
| `CaptureRuns.RecordIff` | agent_gateway/approval_store.py:2994-3084 | the exact condition for a first bind, and that a repeat changes nothing |
| `CaptureRuns.ParkIff` | agent_gateway/approval_store.py:3138-3227 | the exact condition for a park over bound calls |
| `CaptureRuns.ParkLeaves` | agent_gateway/approval_store.py:3138-3227 | the whole ledger a park leaves: one row for the call, its nonce, the approvals expired in its favour, nothing else decided |
| `CaptureRuns.RowsLeaveOnly` | agent_gateway/approval_store.py:2994-3672 | in every run a captured call's row goes only to a park, re-issue, replacement, claim or completion that may take it |
| `CaptureRuns.ReplacedIff` | agent_gateway/approval_store.py:2299-2429 | exactly when a plan is replaced, and which row and request go |
| `LedgerGuarantees.DecisionsAreFinal` | agent_gateway/approval_store.py:3840-3941 | between any two points of a run terminal never becomes non-terminal, the version never falls, and a changed decision has a higher one |
| `DecisionRuns.DecisionsWereWritten` | agent_gateway/approval_store.py:3840-4301 | every decision (state, version, author, verdict, reason) is exactly what some entitled call of the run wrote |
| `DecisionRuns.EntitledIsHeard` | agent_gateway/approval_store.py:3840-4301 | in any reachable ledger an entitled transition, vote, cancellation, abort or replacement writes exactly what it carries and touches no other request |
| `DecisionRuns.DescriptionsWereWritten` | agent_gateway/approval_store.py:3770-3838 | every request's hash, scope, authorization, grant reference and policy come from one creation, allowed update or re-issue |
| `OriginRuns.RequestsWereCreated` | agent_gateway/approval_store.py:2187-2235 | every request has the user, tool, run and frozen identity that a create of the run carried |
| `OriginRuns.VotesWereCast` | agent_gateway/approval_store.py:4225-4301 | every stored vote was cast by a call that decided its open request with it |
| `LedgerGuarantees.VotesDecideOnce` | agent_gateway/approval_store.py:4225-4301 | every vote belongs to a decided request, none has two, and the conflict branch is unreachable |
| `LedgerGuarantees.GenerationLookupIsUnambiguous` | agent_gateway/approval_store.py:3229-3242 | a call and nonce are linked from at most one root turn of a job, once |
| `OriginRuns.TurnsWereRecorded` | agent_gateway/approval_store.py:2548-2623 | every root turn carries the tenant and authority a call admitted for its job, under the generation admitted or re-issued |
| `OriginRuns.LinksWereMade` | agent_gateway/approval_store.py:2702-2770 | every link was made by a call while the captured call carried the linked nonce |
| `CaptureRuns.LinkIff` | agent_gateway/approval_store.py:2702-2770 | the exact condition for linking a bound or unbound call, and the turn it leaves |
| `CaptureRuns.TurnIff` | agent_gateway/approval_store.py:2548-2623 | side fact: a turn is recorded if and only if it is new or was admitted exactly so |
| `LedgerGuarantees.TurnsKeepAuthority` | agent_gateway/approval_store.py:2702-2770 | a root turn's authority is never rewritten and links only accumulate |
| `Reissues.ReissueOutcome` | agent_gateway/approval_store.py:3244-3404 | a re-issue finds the approval it was already expired for, or publishes exactly the described ledger if and only if the call may move and its nonce is unlinked, or is refused |
| `CaptureRuns.ReissueIff` | agent_gateway/approval_store.py:3244-3368 | in any reachable ledger: the exact condition for creating a successor, and the whole ledger it leaves |
| `Reissues.ReissueKeepsOneApproval` | agent_gateway/approval_store.py:3244-3368 | the approval that held the call is decided, the successor is pending with the predecessor's identity and the call's only row and captured operands, the original turn is untouched and the new one carries its authority |
| `Reissues.ImmediateRetry` | agent_gateway/approval_store.py:3370-3404 | a retry returns the same successor exactly when the re-issue expired the approval it names or that one already named the successor, and is refused otherwise |
| `DeniedReissue.RefusedReissueIff` | agent_gateway/approval_store.py:3244-3368 | re-issuing a refused call succeeds if and only if no root turn links its nonce, and is otherwise refused by the link |
| `DeniedReissue.DeniedIsReached` | agent_gateway/approval_store.py:2994-3941 | creating, capturing, admitting and denying a call reaches the ledger of the counterexample |
| `DeniedReissue.RetryCanBeRefused` | agent_gateway/approval_store.py:3244-3404 | the counterexample, a run from an empty store: a denied call is re-issued once and its immediate retry is refused |
| `LedgerGuarantees.FencesHold` | agent_gateway/approval_store.py:5467-5542 | once fenced, all grants of the approval are revoked, none is minted and none is found |
| `OriginRuns.FencedIff` | agent_gateway/approval_store.py:5467-5542 | an approval is fenced if and only if some call fenced it in the name of its own call, user, request, run, session and channel |
| `GrantRuns.MintIff` | agent_gateway/approval_store.py:5283-5348 | in any reachable ledger the exact condition for minting, in both directions |
| `GrantRuns.RevokedIff` | agent_gateway/approval_store.py:5409-5542 | a grant is what was minted, and is revoked if and only if it was minted so or some later call revoked it by id, by approval, or by its owner aborting or fencing |
| `GrantRuns.FoundIff` | agent_gateway/approval_store.py:5350-5407 | a lookup may answer a grant if and only if some call minted it for exactly this user, tool and scope, it is unexpired and of the mode and key asked for, and no call revoked it since |
| `LedgerGuarantees.RevocationsHold` | agent_gateway/approval_store.py:5409-5465 | a revoked grant is never found again |
| `LedgerGuarantees.ExactLookupMatchesKey` | agent_gateway/approval_store.py:5350-5407 | side fact: an exact lookup returns only a grant whose scope is its key |
| `LedgerGuarantees.DisabledNeverGranted` | agent_gateway/approval_store.py:5283-5348 | a request with reuse disabled never has a grant or an authorized scope, at any later point |
| `LedgerProvenance.TakenWasClaimed` | agent_gateway/approval_store.py:3548-3672 | every claimed or completed row was taken by a successful claim of the run with its own token and version |
| `LedgerProvenance.GrantsWereApproved` | agent_gateway/approval_store.py:5283-5348 | every grant was minted while its approval was approved, unfenced and reusable for exactly its user, tool and scope |
| `LedgerProvenance.DecisionsHaveCauses` | agent_gateway/approval_store.py:3840-4301 | in every run a decision is written if and only if a call entitled to it commits (owner, vote, transition, replacement or re-issue), by exactly one version; only a vote or transition approves |
| `LedgerProvenance.VoteDecides` | agent_gateway/approval_store.py:4225-4301 | side fact: in any reachable ledger a vote decides an open request as voted and changes nothing on a decided one |
| `JointRuns.StepGood` | agent_gateway/approval_store.py:4225-4301 | a vote or cancellation that decides and queues in one transaction keeps both table groups good, or undoes both |
| `JointRuns.JointRefines` | agent_gateway/approval_store.py:4163-4321 | every run of the one database leaves the ledger of a ledger run and the outbox of an outbox run, so whatever holds of every run of either holds of it |
| `JointRuns.OneFenceStopsBoth` | agent_gateway/approval_store.py:5467-5542 | in one joint run, a fence stops both the approval's grants and its approved delivery |
| `JointRuns.DeliveriesCarryDecisions` | agent_gateway/approval_store.py:585-770 | every delivery row was queued by the very call that decided its request, and carries that decision, call and run |
| `JointRuns.VoteIsDelivered` | agent_gateway/approval_store.py:4163-4321 | a first vote with a target takes effect if and only if its delivery can be queued; request and delivery then both hold the decision, otherwise neither |
| `JointRuns.CancelIsDelivered` | agent_gateway/approval_store.py:3943-4056 | the owner's cancellation with a target takes effect if and only if the denial can be queued |
| `ApprovalStore.Store.constructor` | agent_gateway/approval_store.py:1654-1990 | starts from empty tables |
| `ApprovalStore.Store.Create` | agent_gateway/approval_store.py:2187-2235 | inserts a valid request under a new id, or refuses |
| `ApprovalStore.Store.WriteState` | agent_gateway/approval_store.py:3888-3941 | the one state write: a terminal request refuses a non-terminal target |
| `ApprovalStore.Store.TransitionState` | agent_gateway/approval_store.py:3840-3886 | the versioned transition, with its refusals |
| `ApprovalStore.Store.TerminalizePending` | agent_gateway/approval_store.py:3943-4056 | cancellation denies only a request still pending for its owner |
| `ApprovalStore.Store.AbortUnpublished` | agent_gateway/approval_store.py:4058-4141 | denies an undecided request and revokes its grants |
| `ApprovalStore.Store.Vote` | agent_gateway/approval_store.py:4163-4321 | one vote decides; the conflicting-vote error is never raised |
| `ApprovalStore.Store.Update` | agent_gateway/approval_store.py:3770-3838 | rewrites descriptive columns unless identity or a captured call would change |
| `ApprovalStore.Store.RecordExecutable` | agent_gateway/approval_store.py:2994-3084 | binds a call once; a repeat must be identical |
| `ApprovalStore.Store.LinkedGeneration` | agent_gateway/approval_store.py:3229-3242 | the generation of the one linking turn, or none |
| `ApprovalStore.Store.InspectRows` | agent_gateway/approval_store.py:3166-3189 | the loop refuses exactly when some row must not move, and otherwise finds the superseded approvals and the published nonce |
| `ApprovalStore.Store.Park` | agent_gateway/approval_store.py:3138-3227 | replaces the colliding rows by the new one and expires what it supersedes, or changes nothing |
| `ApprovalStore.ExpireEach` | agent_gateway/approval_store.py:3211-3226 | the second loop expires exactly the superseded requests |
| `ApprovalStore.Store.RecordRootTurn` | agent_gateway/approval_store.py:2548-2623 | records a turn once; a repeat must carry the same authority |
| `ApprovalStore.Store.LinkRootTurn` | agent_gateway/approval_store.py:2702-2770 | links the call's current nonce from one turn only |
| `ApprovalStore.Store.ReadExecutable` | agent_gateway/approval_store.py:3429-3497 | the stored binding, or the first identity check that fails |
| `ApprovalStore.Store.Verify` | agent_gateway/approval_store.py:3499-3524 | accepts only the exact stored capture |
| `ApprovalStore.Store.ClaimExecution` | agent_gateway/approval_store.py:3548-3605 | reserves the one attempt, returns a completed result, or refuses |
| `ApprovalStore.Store.CompleteExecution` | agent_gateway/approval_store.py:3607-3672 | records the claimed attempt's result once; a repeat must agree |
| `ApprovalStore.Store.FindSuccessor` | agent_gateway/approval_store.py:3370-3404 | the successor the predecessor was expired for, if any |
| `ApprovalStore.Store.ReissueApproval` | agent_gateway/approval_store.py:3244-3368 | the whole re-issue, or a full rollback |
| `ApprovalStore.Store.PublishSuccessor` | agent_gateway/approval_store.py:3306-3361 | park, link and publish the successor, or a full rollback |
| `ApprovalStore.Store.MintGrant` | agent_gateway/approval_store.py:5283-5348 | mints a grant only through an approved, unfenced, reusable request of the same scope |
| `ApprovalStore.Store.RevokeVia` | agent_gateway/approval_store.py:5431-5465 | revokes exactly the grants minted through the approval |
| `ApprovalStore.Store.FenceGrants` | agent_gateway/approval_store.py:5467-5542 | fences the approval and revokes its grants for the owning run only |
| `ApprovalStore.Store.FindGrant` | agent_gateway/approval_store.py:5350-5407 | finds the newest live, unexpired matching grant if and only if there is one; an exact lookup matches its key |
| `OutboxRuns.PerformKeeps` | agent_gateway/approval_store.py:4480-5281 | every transaction keeps the table constraints, order and counters, and trips no CHECK given positive times |
| `OutboxRuns.StatesMoveForward` | agent_gateway/approval_store.py:4673-5281 | rows move only pending to published to acknowledged, or pending to quarantined |
| `OutboxRuns.ConstraintsNeverTrip` | agent_gateway/approval_store.py:1898-1973 | no CHECK is ever tripped given positive times; a compare-and-set fails if and only if it is an audit receipt for a row quarantined first |
| `OutboxRuns.LateAuditFails` | agent_gateway/approval_store.py:4480-4554 | that failure occurs: quarantine, then the receipt |
| `OutboxRuns.TimesAreOrdered` | agent_gateway/approval_store.py:426-454 | created, audited, published and acknowledged times follow in order and never pass the clock |
| `OutboxRuns.SequencesAreDistinct` | agent_gateway/approval_store.py:647-681 | sequences are positive, distinct and below the counter, one row per approval |
| `OutboxRuns.WindowIsClosed` | agent_gateway/approval_store.py:4998-5066 | a recovery window never gains a row that came later |
| `OutboxRuns.FencedIsNeverPublished` | agent_gateway/approval_store.py:4654-4666 | after a fence an approved delivery is out only if it already was |
| `OutboxRuns.AttemptsCountFailures` | agent_gateway/approval_store.py:5068-5281 | attempts equal recorded failures, plus one exactly when the row is no longer pending |
| `OutboxProvenance.RowWasInserted` | agent_gateway/approval_store.py:585-770 | every row was queued by the run under the then next sequence, for the decision it carries |
| `OutboxProvenance.OutWasPublished` | agent_gateway/approval_store.py:4594-4824 | every published row was published by an append or reconcile that passed all checks |
| `OutboxProvenance.AcknowledgedByAddressee` | agent_gateway/approval_store.py:4843-4996 | every acknowledged row was acknowledged by a call naming exactly its addressee and decision |
| `DeliveryRuns.EachRowLives` | agent_gateway/approval_store.py:4480-5281 | in any reachable outbox every transaction does to every row exactly what the life of a delivery says: guards, state, times, attempts and error |
| `DeliveryRuns.AppendIff` | agent_gateway/approval_store.py:4594-4702 | the append publishes if and only if the inbox was written, the row stands audited and pending with this decision, the clock goes on, and it is not an approval that was fenced |
| `DeliveryRuns.ReconcileIff` | agent_gateway/approval_store.py:4704-4824 | the same for a surviving record; one already out is left as it is |
| `DeliveryRuns.DeliverableIff` | agent_gateway/approval_store.py:4594-4996 | a queued delivery can be acknowledged in some continuation if and only if it was not given up and is not an approval fenced before it went out; a fence never stops a denial |
| `DeliveryRuns.WindowsCover` | agent_gateway/approval_store.py:4998-5066 | side fact: draining to the high-water mark visits every pending delivery, and two windows visit the same ones, none twice |
| `DeliveryStore.Store.constructor` | agent_gateway/approval_store.py:1888-1976 | starts from empty outbox tables |
| `DeliveryStore.Store.TrustedNow` | agent_gateway/approval_store.py:426-454 | advances the clock high-water or refuses a clock that went back |
| `DeliveryStore.Store.InsertDelivery` | agent_gateway/approval_store.py:585-770 | queues a decided outcome under the next sequence, or rolls back |
| `DeliveryStore.Store.MarkDeliveryAudited` | agent_gateway/approval_store.py:4480-4554 | records the audit receipt once |
| `DeliveryStore.Store.CheckBeforeAppend` | agent_gateway/approval_store.py:4622-4666 | the first failing check before the child inbox is written |
| `DeliveryStore.Store.PublishRow` | agent_gateway/approval_store.py:4673-4702 | the publishing compare-and-set, or rollback |
| `DeliveryStore.Store.AppendTransaction` | agent_gateway/approval_store.py:4594-4702 | check, body and publish as one transaction |
| `DeliveryStore.Store.ReconcileDuplicate` | agent_gateway/approval_store.py:4704-4824 | publishes a surviving record once; an already published one is left alone |
| `DeliveryStore.Store.AcknowledgeDelivery` | agent_gateway/approval_store.py:4843-4996 | acknowledges a published row for exactly its addressee |
| `DeliveryStore.Store.RecordFailure` | agent_gateway/approval_store.py:5068-5175 | counts a failure and keeps the state |
| `DeliveryStore.Store.QuarantineDelivery` | agent_gateway/approval_store.py:5177-5281 | quarantines a pending row only |
| `DeliveryStore.Store.FenceDelivery` | agent_gateway/approval_store.py:5467-5542 | adds the fence |
| `DeliveryStore.Store.RecoveryWindow` | agent_gateway/approval_store.py:5040-5066 | advances the clock and returns the greatest sequence |
| `Publication.CommitIsAppend` | agent_gateway/approval_remote.py:1092-1110 | commit of an active reservation is the local append: its compare-and-set cannot fail and it increments once |
| `Publication.ActiveReservationHolds` | agent_gateway/approval_remote.py:1062-1110 | in every reachable state an active reservation's row is pending, audited and unfenced, and only a clock that went back can refuse its commit |
| `Publication.RemoteRefinesLocal` | agent_gateway/approval_remote.py:1214-1240 | every interleaving of reserves, commits, aborts, replacements and other writers leaves the tables of a local run with atomic appends |
| `Publication.PublishedAtMostOnce` | agent_gateway/approval_remote.py:1092-1126 | a delivery is published at most once in any run |
| `Publication.OnePublishIncrement` | agent_gateway/approval_remote.py:1092-1110 | a published delivery was counted once beside its recorded failures |
| `Publication.NoPublishAfterFence` | agent_gateway/approval_remote.py:241-254 | no approved delivery goes out after a fence, on any path |
| `Publication.RetriesAreSafe` | agent_gateway/approval_remote.py:1062-1126 | lost reserve and commit replies, abort after commit and commit after abort change nothing they should not |
| `Publication.ReleasedExactly` | agent_gateway/approval_remote.py:1214-1240 | an active reservation is released if and only if it is committed under a clock that did not go back, aborted, or its generation replaced; asking again hands it out again |
| `Publication.ReserveIff` | agent_gateway/approval_remote.py:1062-1090 | in any reachable service the exact condition for a reservation, which is then active for this row and generation |
| `Publication.CanBePublished` | agent_gateway/approval_remote.py:1062-1110 | from every reachable service an audited pending delivery that is not a fenced approval goes out by one reserve and one commit |
| `Publication.WriteIff` | agent_gateway/approval_store.py:1619-1652 | a store write behind the service is the store's own unless an active reservation of its row, or for a fence of its approval, makes it wait |
| `ServiceRuns.WholeRefinesJoint` | agent_gateway/approval_remote.py:1214-1240 | every interleaving of reservations with every ledger and outbox write leaves exactly the tables of a joint run in which each first commit is one atomic append |
| `ServiceRuns.CommitsCarryDecisions` | agent_gateway/approval_remote.py:1092-1110 | in any run a committed reservation's row is out, carries the decision it was reserved for, and was queued by the very call that decided its request that way |
| `ServiceRuns.FenceStopsCommits` | agent_gateway/approval_remote.py:241-254 | once a request is fenced in the ledger, no approved delivery of it is committed that was not already out |
| `PublicationClient.Service.constructor` | agent_gateway/approval_store.py:1979-1987 | starts without reservations |
| `PublicationClient.Service.Reserve` | agent_gateway/approval_remote.py:1062-1090 | reserves after the local checks, and finds its own reservation again |
| `PublicationClient.Service.Commit` | agent_gateway/approval_remote.py:1092-1110 | publishes what was reserved, once |
| `PublicationClient.Service.Abort` | agent_gateway/approval_remote.py:1112-1126 | releases an active reservation; a committed or missing one is left alone |
| `PublicationClient.Service.Replace` | agent_gateway/approval_remote.py:1214-1240 | a later generation releases what the old one held |
| `PublicationClient.Service.Acknowledge` | agent_gateway/approval_store.py:1619-1652 | refused while the row is reserved, else the store's acknowledgment |
| `PublicationClient.Service.RecordFailure` | agent_gateway/approval_store.py:1619-1652 | refused while the row is reserved, else the store's failure record |
| `PublicationClient.Service.Quarantine` | agent_gateway/approval_store.py:1619-1652 | refused while the row is reserved, else the store's quarantine |
| `PublicationClient.Service.Reconcile` | agent_gateway/approval_remote.py:1214-1240 | writes nothing while the row is reserved, else the store's reconcile |
| `PublicationClient.Service.Fence` | agent_gateway/approval_remote.py:241-254 | refused while any delivery of the approval is reserved |
| `PublicationClient.Service.Terminalize` | agent_gateway/approval_remote.py:241-254 | refused while any delivery of the approval is reserved, else queues the denial |
| `PublicationClient.AppendPublication.constructor` | agent_gateway/approval_remote.py:2244-2259 | starts without a reservation |
| `PublicationClient.AppendPublication.Enter` | agent_gateway/approval_remote.py:2261-2269 | holds a reservation for its own row or raises; exactly when a lost reply leaves a reservation the client does not know of |
| `PublicationClient.AppendPublication.Exit` | agent_gateway/approval_remote.py:2271-2286 | a clean exit means the delivery is out, a failed body publishes nothing, and exactly when the reservation stays pinned |
| `PublicationClient.AppendPublication.AbortOver` | agent_gateway/approval_remote.py:2232-2241 | an abort that arrives releases the reservation |
| `Admission.GrantRoutes` | agent_gateway/admission.py:797-825 | the loop over the route ceiling keeps exactly the routes that pass |
| `Admission.SpawnGrantIff` | agent_gateway/admission.py:797-825 | tool by tool along a lineage: granted if and only if registered, in the ceiling, kept by the resolver, held, not withheld by id or policy name, not denied to the role; `run_agent` only above the deepest tier with children |
| `Admission.HeldIff` | agent_gateway/admission.py:797-825 | along every lineage of spawns, messages and reads a job holds a tool if and only if it entered as the root's or through a spawned operation and every spawn from there on let it through |
| `Admission.SpawnIff` | agent_gateway/admission.py:624-723 | exactly when a job may spawn, and what its child records |
| `Admission.ResumeIff` | agent_gateway/admission.py:861-921 | exactly when a durable task may be resumed, and what the resumed job has |
| `Admission.ReferenceIff` | agent_gateway/admission.py:924-978 | exactly when a message may be sent and a handle read |
| `Admission.WithheldOnlyGrows` | agent_gateway/admission.py:903-918 | along every chain of admissions the withheld set only grows |
| `Admission.SpawnNeverGrantsWithheld` | agent_gateway/admission.py:797-825 | no spawned descendant is granted a route any ancestor withheld, by id or policy name |
| `Admission.ResumeKeepsDurableGrant` | agent_gateway/admission.py:861-921 | a resumed job keeps its durable grant, but its children do not get what was withheld |
| `Admission.HandlesWereSupplied` | agent_gateway/admission.py:667-675 | every handle was the root's or supplied on the path |
| `Admission.ToolsTraceBack` | agent_gateway/admission.py:797-852 | every tool was the root's or introduced by an operation or durable task on the path |
| `Admission.ResearchFileIsFixed` | agent_gateway/admission.py:676-723 | a bound research file never changes under spawns, and without an explicit file neither does the ticker |
| `Admission.DepthIsBounded` | agent_gateway/admission.py:624-641 | depth counts spawns, and a lineage under one limit never spawns past it |
| `Admission.DeepestTierCannotSpawn` | agent_gateway/admission.py:820-824 | at the deepest tier no `run_agent` is granted and any spawn is refused |
| `Admission.ReferencesWereSupplied` | agent_gateway/admission.py:924-978 | what a spawn passes on, a message attaches or a read opens was the root's or supplied on the path |
| `Admission.SpawnsAreDeclared` | agent_gateway/admission.py:661-666 | along a lineage each job spawns only operations its own operation declares |
| `Admission.IdentityIsTheTenants` | agent_gateway/admission.py:642-658 | a child identity is admitted only as the lineage's tenant |
| `Admission.MessagesStayWithTenant` | agent_gateway/admission.py:933-957 | a message reaches only an authenticated recipient of the lineage's tenant |
| `Admission.TenantIsFixed` | agent_gateway/admission.py:642-658 | no admission along a lineage changes the tenant |

## Left out

- JSON is replaced by a small self-delimiting encoding with integers, strings, lists and objects; floats, non-finite timestamps and escapes are not part of the model.
- Sequences written as strings, floats or booleans, and non-string event types, which the lenient parser coerces.
- A duplicate key inside an otherwise torn line counts as torn.
- SessionLog.AgentSessionLog.CompareStored: compares the canonical top-level fields; nested objects compare as written, because the source's nested normalisation belongs to its JSON library.
- SessionLog.AgentSessionLog.QueryCurrentStrict: speaks about a log its own writers left; files damaged by others are the subject of `StrictPage` and `StrictScan`. Neither feeds the offset cache.
- Repair.RepairFiles: on a refusal the model leaves sidecars alone; `RepairNeverRefuses` shows that no reachable log gets there.
- Sidecar and telemetry fields, file hashes, inode and owner checks, symlinks, fsync, flock and directory chains, the first and second file layouts, and asyncio scheduling.
- SessionLog.AgentSessionLog.NoteEntries: notes new records within the append; the source does so after its mutex is released and re-reads the file's identity, so the interleaving results cover it only when offset and identity still belong to the same file state (`Honest`).
- SessionLog.AgentSessionLog.FinishAppend: makes that note as its last step, for the same reason.
- ApprovalStore.Store.Park: does not say which error is raised when several colliding rows are wrong, because the rows come from an unordered query.
- ApprovalStore.Store.RecordExecutable: does not say which error is raised when two rows collide, for the same reason.
- ApprovalStore.Store.ReissueApproval: does not say which error the inner park raises, for the same reason.
- ApprovalStore.Store.FindGrant: a lookup with a malformed reuse key finds nothing, or ignores the key under legacy reuse, where the source raises.
- LedgerRuns.SupersedeGood: models only what replacing a prepared plan does to requests and bindings; the plan tables and raw-patch claims are not part of this model.
- LedgerGuarantees.DecisionsAreFinal: compares two points of a run; which call writes each decision, and by how many versions, is `LedgerProvenance.DecisionsHaveCauses`.
- ApprovalStore.Store.Vote: covers the ledger half of the transaction; deciding and queueing together is the subject of `JointRuns`.
- ApprovalStore.Store.TerminalizePending: covers the ledger half, and compares channels as given, without the source's trimming and lower-casing.
- DeliveryStore.Store.InsertDelivery: takes the decision as an argument; the checks against request and vote are in `JointRuns`.
- OutboxProvenance.RowWasInserted: speaks of the decision given to the insert; that it is the request's own is `JointRuns.DeliveriesCarryDecisions`.
- Expiry and decision times of requests, raw-patch claims, notification outbox, audit emission, delegation grants, foreign keys to policy generations, and digests: bindings are compared whole.
- Outbox timestamps are kept in nanoseconds; their text form truncates to microseconds, which keeps the order.
- OutboxRuns.WindowIsClosed: treats a drain window as a set of rows; the order of the listing is not modelled.
- DeliveryStore.Store.MarkDeliveryAudited: models the write transaction of the receipt, not the read before it.
- HTTP transport, wire codecs and claim minting of the remote approval client.
- Admission's model selection, placement, environment projection, budget and approval-route labels; the tool resolver is an input that keeps some of the routes offered to it; the role check of a child identity and the logging are not modelled.
- Prepared-reconciliation paging of the approval store, whose helper module is not part of this model.
