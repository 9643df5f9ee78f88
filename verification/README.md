# ControlDB in Dafny

ControlDB records what AI agents do as tamper-evident audit events. This project models its core and proves what
the core is for:

- **Raft replication** (`core/src/raft/node.cpp`, `core/src/raft/log.cpp`): the rules of one node, the node as an
  object over its log file, and the cluster as a transition system with one atomic action per critical section.
  Messages may be delayed, duplicated, reordered or never delivered; nodes crash and restart from what is on disk,
  between critical sections and in the middle of rewriting a log file (other writes are taken as atomic).
- **Record files**: the Raft log and the write-ahead log (`core/src/wal.cpp`) as byte sequences.
- **Event store** (`core/src/event_store.cpp`): tables, two key indexes, idempotency table and sequence counter,
  shown to stand for a plain map from run id to a list of events, with paging over the index.
- **Hash chain and canonical texts** (`core/src/hash_chain.cpp`, `sdk/typescript/src/hashing.ts`): two printers, two
  parsers that undo them, and what the head of a chain says about its history. SHA-256 is an arbitrary function.
- **Delivery and redaction**: the Python SDK's buffer against the collector's deduplication and chaining, and the two
  redaction walkers.

## How to read it

| files | contents |
|---|---|
| `Common`, `Bytes`, `Decimal` | shared types, big-endian bytes, decimal digits |
| `Frames`, `LogFile`, `Wal` | length-framed records, the Raft log and its file, the write-ahead log |
| `CommitRule`, `RaftRules`, `RaftEffects`, `RaftNode` | the order statistic, the rules as functions, what each rule does field by field, the node that follows them |
| `RaftCluster` | configuration, messages, actions, runs; `History` records what happened and no action reads it |
| `RaftElection`, `RaftLogs`, `RaftCommitRule` | election safety, log matching, the commit rule |
| `RaftCompleteness`, `RaftSafety` | leader completeness and state machine safety: under the contract |
| `RaftPropose` | what the answer of `propose` is worth |
| `RaftStamping` | when the code as written meets the contract |
| `RaftSteps`, `RaftVoting`, `RaftProgress` | ways in which a run can go on: who can be elected, what can be committed |
| `RaftSight` | runs of three servers, step by step |
| `RaftTrace`, `RaftStale`, `RaftLate`, `RaftTorn` | the runs in which the code falls short, one for each repair |
| `JsonText`, `Timestamp`, `CanonicalEvent`, `EventReader`, `HashChain`, `CanonicalJson`, `KeyOrders` | texts, hashes, chains |
| `KeyOrder`, `StoreRules`, `StoreEffects`, `StoreInvariants`, `StoreResend`, `Timeline`, `EventStore` | the event store |
| `Ingest`, `Delivery`, `Redaction` | collector, SDK run, redaction |

Code that updates state is a class whose methods are proved equal to a function of the old state; the theorems are
about that function. Lemmas named `...Exact` say what such a function does without naming it. `dafny verify dfyconfig.toml` checks everything.

## Where the code and its description differ

- **The contract.** `RaftRules.Mode` has four switches, one for each of the next four points; `AS_WRITTEN` has all of them
  off and is the code, `CONTRACT` has all of them on. Election Safety holds in every mode. Each of the four repairs is
  needed: with the other three made, two different commands are still applied at one index.
- **Entry terms** (`wire`). The transport header (`core/include/controldb/raft/transport.hpp:30`) says shipped entries are
  serialised log entries, which would carry their own terms. The code ships bare commands and the receiver stamps
  them with the sender's term (`core/src/raft/node.cpp:446-455`; the receiver of the model then ignores the terms in its
  messages). `AsWrittenLosesCommands` is the run, `StampingMatters` says exactly when the two receivers differ.
- **Stale replies** (`dropStale`). A reply to AppendEntries is processed whatever the sender's current term and role
  (`core/src/raft/node.cpp:356-366`). `StaleRepliesLoseCommands` is the run.
- **Late role checks** (`locked`). `propose` and `replicate_to_peer` read the role before they take the mutex
  (`core/src/raft/node.cpp:223-230`, `:336-350`), so a node that has stepped down can append or ship under a term that
  another server leads. Log Matching is lost too: `LateProposalsLoseCommands` is the run. `LockedRuns` says that reading the
  role under the mutex takes away exactly the runs in which a server that does not lead proposes or ships.
- **Torn cuts** (`wholeCut`). Cutting a log back empties its file and writes the remaining entries again one by one
  (`core/src/raft/log.cpp:129-134`), so a crash in between loses entries that were acknowledged. `TornRewrite` says what
  can be left, `TornCutsLoseCommands` is the run.
- **Tame runs.** `AsWrittenSafeWhenTame`: runs of the code in which accepted requests ship own-term entries only, replies are
  processed while still leading, only leaders propose and ship and no cut is torn are contract runs and safe.
- **Answered proposals.** `propose` promises to block until the entry is committed (`core/include/controldb/raft/node.hpp:62`).
  It waits for the commit index to reach the entry's index, and by then another leader may have replaced the entry:
  `ToldOfAnother` is such a run, in every mode, the contract included. `AnswerExact` gives the check that is missing: the
  command is settled if and only if the entry at that index still has the term it was appended in.
- **Commit rule.** `term_at` past the end of the log is 0, so when a majority of match indices lie past the leader's
  own log the rule does not advance although the last entry could be committed. `CommitRuleMeetsSpec` gives the exact
  condition, `CommitRuleMisses` a reachable state of the code in which it fails; under the contract it always holds
  (`CommitRuleExactUnderContract`).
- **run_election** takes the non-recursive mutex at its start, in every reply callback and again at its end
  (`core/src/raft/node.cpp:267`, `:289`, `:301`). The model has three critical sections: start, one reply, finish.
- **Write-ahead log header** (`core/include/controldb/wal.hpp:18-19`) describes a shorter record than
  `core/src/wal.cpp:44-50` writes; the model follows the code.
- **Canonical event text.** It promises the format of the Python encoder (`core/src/hash_chain.cpp:13-18`, `:62-64`), but writes
  backspace and form feed as hexadecimal escapes where the other printers have short ones (`core/src/hash_chain.cpp:30-54`).
  `JsonText.StylesAgree`: the texts of a string agree if and only if it holds neither.
- **Canonical JSON.** The script printer promises the text of Python's `json.dumps` (`sdk/typescript/src/hashing.ts:14-15`)
  but sorts keys by UTF-16 code units, not by code points. `KeyOrders.ScriptTextIsPythons` says exactly when the texts
  agree, `OrdersDiffer` gives a value for which they do not.
- **Stored events.** The collector hashes an event with the actor and the offset of the time it was sent with, and stores
  of them the actor's type and id and, in a database without zones, the wall clock
  (`services/collector/controldb_collector/ingest.py:258-293`, `:305-317`). `Ingest.NewEventVerifies` says exactly which
  events verification then accepts; the SDK's are among them.
- **Re-sent batches with empty event ids.** An empty id reads as "not found" in the idempotency table, so such an event
  is stored again (`core/src/event_store.cpp:560-571`); `StoreResend.ResendExact` is the exact condition.
- **Late requests.** A batch the collector processes after later events were stored moves the recorded head back to its
  own last row (`services/collector/controldb_collector/ingest.py:249-250`, `:220`). `Ingest.LateReplay` says exactly
  when the next event still keeps the chain. Delivery is proved for requests processed before the client gives up.

## Model

| member | source | states |
|---|---|---|
| RaftEffects.VoteExact | core/src/raft/node.cpp:403-412 | the whole effect of a vote request: when it is granted, the vote, term, role and leader left behind in either case, and that log, commit index, peers and election stay |
| RaftEffects.StartExact | core/src/raft/node.cpp:266-278 | standing takes the next term, a vote for itself and an empty count; the request carries the end of the log |
| RaftEffects.VoteReplyExact | core/src/raft/node.cpp:289-294 | a later term ends the candidacy; otherwise a granted reply counts its voter once and a refusal counts nothing |
| RaftEffects.FinishExact | core/src/raft/node.cpp:299-313 | a candidate leads if and only if its voters and itself are more than half of the cluster, with every peer at the end of its log; otherwise it gives up its vote |
| RaftEffects.RequestExact | core/src/raft/node.cpp:338-351 | a request starts at the peer's next index and holds every entry from there on, with the term before it and the commit index |
| RaftEffects.MergeExact | core/src/raft/node.cpp:441-458 | merging keeps the log up to the first position whose terms differ and takes the rest as shipped; without one it keeps the log |
| RaftEffects.AppendExact | core/src/raft/node.cpp:414-463 | a request is accepted if and only if it is not late and the log has its previous entry; what each refusal answers and cuts; the commit index becomes the smaller of the leader's and the log's end when that is news |
| RaftEffects.ReplyExact | core/src/raft/node.cpp:356-371 | a later term ends leadership, an acknowledgement sets the peer's indices and may move the commit index, a refusal moves the peer back by one but not below 1 |
| RaftEffects.RestartExact | core/src/raft/node.cpp:155-163 | a restart keeps term, vote and log and nothing else |
| RaftVoting.MajorityElects | core/src/raft/node.cpp:266-314 | in every mode and for any number of servers: from a reachable state in which i may stand and a majority may vote for it, a run goes on in which i wins its next term, and the state it ends in |
| RaftProgress.AlwaysProgress | core/src/raft/node.cpp:117-140 | under the contract, with two or more servers: from every reachable state, for every command, a run goes on in which it is committed and applied in a term no server had reached |
| RaftProgress.AloneNeverCommits | core/src/raft/node.cpp:362-366 | a cluster of one server never commits, because the commit rule only runs on a reply: hence single-node mode |
| RaftElection.ElectionSafety | core/src/raft/node.cpp:96-114 | in every mode: in every reachable state at most one server has ever won an election of a term, although failed candidates clear their own vote |
| RaftElection.OneWinner | core/src/raft/node.cpp:266-314 | the two winning vote sets of one term share a voter whose recorded ballots agree |
| RaftElection.VotesReachable | core/src/raft/node.cpp:403-412 | the vote invariant holds in every reachable state; it exempts only a dead self-candidacy |
| RaftCluster.Intersect | core/src/raft/node.cpp:476-479 | two quorums share a server |
| RaftLogs.LogMatching | core/src/raft/node.cpp:414-463 | when only leaders propose and ship, whatever else is repaired: logs with an entry of one index and term agree on the commands up to it, and on the entries when those keep their terms |
| RaftLogs.LogsReachable | core/src/raft/node.cpp:226-230 | when only leaders propose and ship: every entry of a log is the entry its term's leader had there, in every reachable state |
| RaftLogs.TermsOrdered | core/src/raft/node.cpp:127-139 | in every mode: log terms never decrease and never exceed the current term |
| RaftLogs.AcceptedAppendAgrees | core/src/raft/node.cpp:426-461 | when only leaders propose and ship: after an accepted AppendEntries of term T the commands up to the last shipped entry are the leader's; a raised commit index covers only such entries provided the request's commit index lies within its previous index and what it ships |
| RaftLogs.ShipsWholeSuffix | core/src/raft/node.cpp:335-351 | a request carries everything after its previous index, so a commit index within the leader's log lies within what it ships |
| RaftCommitRule.CommitRuleMeetsSpec | core/src/raft/node.cpp:127-139 | the rule picks the highest index a majority holds with an entry of the current term, exactly unless a majority of match indices pass the leader's own log |
| RaftCommitRule.HeldByMajority | core/src/raft/node.cpp:128-134 | an index is held by a majority if and only if it is at most the picked value |
| RaftCommitRule.MajorityWithin | core/src/raft/node.cpp:128-134 | when every match index lies within the leader's log the picked value does too |
| CommitRule.MajorityValueIsHighest | core/src/raft/node.cpp:131-134 | the sorted value at the majority position is the largest that a strict majority reaches |
| CommitRule.SortDescending | core/src/raft/node.cpp:131 | the sort is descending |
| CommitRule.SortCounts | core/src/raft/node.cpp:131 | the sort keeps how many values reach any bound |
| RaftCompleteness.LeaderCompleteness | core/src/raft/node.cpp:104-140 | under the contract: an entry a majority stored in its own term is in the log of every later leader, with everything below it |
| RaftCompleteness.CompReachable | core/src/raft/node.cpp:335-463 | the invariant behind it: a chosen entry is held by any candidate that could still win |
| RaftCompleteness.UpToDateHas | core/src/raft/log.cpp:174-181 | a candidate log at least as up to date as one that holds a chosen entry holds it too |
| RaftSafety.StateMachineSafety | core/src/raft/node.cpp:379-397 | under the contract: no two apply calls of any processes give one index different commands |
| RaftSafety.AppliesCommittedPrefix | core/src/raft/node.cpp:390-395 | each process has applied exactly the first entries of its log up to its applied index, in order and once, within its commit index |
| RaftSafety.CommittedPrefixesAgree | core/src/raft/node.cpp:117-140 | of two servers' committed prefixes one is a prefix of the other |
| RaftSafety.LeaderHoldsCommitted | core/src/raft/node.cpp:335-373 | a leader holds everything committed at servers not past its term |
| RaftSafety.CommitRuleExactUnderContract | core/src/raft/node.cpp:362-366 | with stale replies dropped the commit rule meets its specification in every reachable state |
| RaftStamping.StampingMatters | core/src/raft/node.cpp:443-457 | stamping with the sender's term changes the receiver exactly when an accepted request ships an entry of another term |
| RaftStamping.TameRunsAreContractRuns | core/src/raft/node.cpp:356-366 | as-written runs that ship only own-term entries, process replies while leading, propose and ship while leading and tear no cut are contract runs |
| RaftStamping.AsWrittenSafeWhenTame | core/src/raft/node.cpp:414-463 | on those runs the code as written keeps state machine safety |
| RaftTrace.AsWrittenLosesCommands | core/src/raft/node.cpp:443-457 | with re-stamping, whatever else is repaired: a reachable state with a chosen entry and a later leader without it, and one with two commands applied at one index |
| RaftStale.CommitRuleMisses | core/src/raft/node.cpp:127-139 | a reachable as-written state whose leader has a majority of match indices past its log and commits nothing although its last entry could be |
| RaftStale.StaleRepliesLoseCommands | core/src/raft/node.cpp:356-366 | with stale replies processed and the other three repairs made, a reachable state in which two commands were applied at one index |
| RaftLate.LockedRuns | core/src/raft/node.cpp:223-230 | reading the role under the mutex takes away exactly the runs in which a server that does not lead proposes or ships |
| RaftLate.LogMatchingWhileLeading | core/src/raft/node.cpp:336-350 | Log Matching of the code on runs in which only leaders propose and ship |
| RaftLate.LateProposalsLoseCommands | core/src/raft/node.cpp:223-230 | with the role read too early, whatever else is repaired: a reachable state with two commands under one index and term, and one with two commands applied at one index |
| RaftTorn.TornCutsLoseCommands | core/src/raft/log.cpp:129-134 | with log files rewritten in place, whatever else is repaired: a reachable state with two commands applied at one index |
| RaftTorn.CutKeeps | core/src/raft/node.cpp:431-452 | a request that cuts a log back leaves the entries before the cut as they were |
| RaftPropose.ProposedExactly | core/src/raft/node.cpp:225-239 | in every state after a leader appended a command, at every server: the entry at its index is the proposed one if and only if it has the term it was appended in |
| RaftPropose.AnswerExact | core/src/raft/node.cpp:233-239 | under the contract, once a server's commit index has reached the proposal's index: the command is settled if and only if the entry there still has the term it was appended in |
| RaftPropose.SettledForGood | core/src/raft/node.cpp:233-239 | under the contract a settled entry stays: in every later state leaders of that or a later term hold it, servers that committed its index hold it, and every apply call for the index has its command |
| RaftPropose.ToldOfAnother | core/src/raft/node.cpp:233-239 | in every mode: a run in which a proposer's command is replaced and its wait ends as committed |
| RaftPropose.WhoProposed | core/src/raft/node.cpp:225-230 | when only leaders propose and ship: every entry of its own term in a leader's log was proposed, at that index, by the server that won the term |
| RaftPropose.RunGrows | core/src/raft/node.cpp:225-230 | over any run a term's leader log only grows |
| RaftNode.RaftNode.constructor | core/src/raft/node.cpp:155-163 | starting from the saved term and vote and a log file, torn or not, gives the restarted node with the file's complete entries |
| RaftNode.RaftNode.StepDown | core/src/raft/node.cpp:96-102 | the node follows the rule, and what is on disk is the new term and empty vote |
| RaftNode.RaftNode.TryGrantVote | core/src/raft/node.cpp:104-114 | grants exactly when the rule does and records the vote on disk |
| RaftNode.RaftNode.HandleRequestVote | core/src/raft/node.cpp:403-412 | grants if and only if the request's term is not behind, the vote of that term is free or already the candidate's, and the candidate's last term and index are lexicographically at least the log's; vote and term on disk afterwards; new state and reply are those of the vote rule |
| RaftNode.RaftNode.Start | core/src/raft/node.cpp:267-278 | new state is that of the start rule; a leader does nothing |
| RaftNode.RaftNode.CollectVote | core/src/raft/node.cpp:289-294 | new state is that of the vote-reply rule |
| RaftNode.RaftNode.Finish | core/src/raft/node.cpp:299-313 | new state is that of the finish rule, peer indices included |
| RaftNode.RaftNode.Propose | core/src/raft/node.cpp:226-230 | appends the command in the current term, leading or not, and names its index |
| RaftNode.RaftNode.PrepareAppend | core/src/raft/node.cpp:338-351 | the request the rule makes for a peer |
| RaftNode.RaftNode.HandleAppendReply | core/src/raft/node.cpp:356-371 | new state is that of the reply rule |
| RaftNode.RaftNode.CheckPrevious | core/src/raft/node.cpp:427-438 | a log too short is left alone, a conflicting suffix is dropped from memory and file |
| RaftNode.RaftNode.MergeEntries | core/src/raft/node.cpp:441-458 | the loop over shipped entries gives the merge of the two logs |
| RaftNode.RaftNode.HandleAppendEntries | core/src/raft/node.cpp:414-463 | new state and reply are those of the append rule as written |
| RaftNode.RaftNode.CollectMatches | core/src/raft/node.cpp:128-130 | collects the leader's last index and every peer's match index |
| RaftNode.RaftNode.TryAdvanceCommit | core/src/raft/node.cpp:117-140 | leader and follower halves follow their rules |
| RaftNode.RaftNode.ApplyCommitted | core/src/raft/node.cpp:386-395 | one pass of the apply loop applies one entry after another up to the commit index |
| RaftNode.ApplyAllExact | core/src/raft/node.cpp:386-395 | a pass applies everything committed that the log holds, each entry once and in the order of its index, and changes nothing else |
| LogFile.RecordLayout | core/src/raft/log.cpp:79-91 | the bytes of one record: index, term and length, the command, and the checksum of everything before it |
| LogFile.LoadCut | core/src/raft/log.cpp:58-77 | a log file cut at any byte loads to the entries whose records are complete |
| LogFile.CutContiguous | core/src/raft/log.cpp:58-77 | a gapless log's file, cut anywhere, loads to a gapless log, a prefix of the entries when all commands fit |
| LogFile.TornRewrite | core/src/raft/log.cpp:129-134 | a crash while the file is emptied and rewritten leaves some beginning of the entries, and can leave any |
| LogFile.FileIsMemory | core/src/raft/log.cpp:79-91 | the file decodes to the entries written exactly when every command is shorter than 2^32 bytes |
| LogFile.KeepContiguous | core/src/raft/log.cpp:123-128 | popping from the back keeps exactly the entries up to the index |
| LogFile.RaftLog.constructor | core/src/raft/log.cpp:58-77 | the load loop yields the complete records of the file |
| LogFile.RaftLog.Append | core/src/raft/log.cpp:104-113 | adds one entry at the next index to memory and file; indices stay 1..n |
| LogFile.RaftLog.AppendBatch | core/src/raft/log.cpp:115-121 | adds the batch to memory and file; indices stay 1..n when the batch continues them |
| LogFile.RaftLog.TruncateSuffix | core/src/raft/log.cpp:123-135 | memory and rewritten file keep exactly the entries up to the index |
| LogFile.RaftLog.GetRange | core/src/raft/log.cpp:146-157 | the existing entries of an index range, in order |
| LogFile.RaftLog.Lookups | core/src/raft/log.cpp:137-172 | without gaps, lookups by index are lookups by position |
| Frames.ParseCut | core/src/wal.cpp:155-177 | a file of framed records cut at any byte parses to exactly its complete records |
| Frames.ParseExact | core/src/raft/log.cpp:58-77 | any file at all, however damaged, parses to the records it starts with, up to a tail too short for another; checksums do not matter |
| Frames.CompleteIsMax | core/src/wal.cpp:155-177 | the records counted complete fit in the cut and one more does not |
| Bytes.BeRoundTrip | core/src/wal.cpp:20-35 | big-endian decoding undoes encoding for every value of the width |
| Bytes.FromBeRoundTrip | core/src/wal.cpp:20-35 | every byte string is the encoding of its value in its own width |
| Bytes.WriteBe | core/src/wal.cpp:20-22 | the buffer-filling loop writes the big-endian bytes |
| Bytes.ReadBe | core/src/wal.cpp:23-27 | the shift loop reads the big-endian value |
| Wal.RecordLayout | core/src/wal.cpp:43-51 | the bytes of one record: number, operation, time and length, the payload, and the checksum |
| Wal.LoadCut | core/src/wal.cpp:150-179 | a write-ahead file cut at any byte gives back its complete records with every field intact |
| Wal.AboveIsSuffix | core/src/wal.cpp:168-176 | with rising numbers the records above a mark are a suffix |
| Wal.ReadAbove | core/src/wal.cpp:155-178 | the read loop returns the complete records above the mark, in order |
| Wal.HeadsCover | core/src/wal.cpp:79-86 | the heads seen in a cut file are those of the complete records and at most one more |
| Wal.ScanLast | core/src/wal.cpp:74-88 | skipping from head to head finds the number of the last record whose head is whole, in a file cut anywhere |
| Wal.Wal.constructor | core/src/wal.cpp:62-96 | opening a file, cut anywhere, continues from the last whole head's number and the saved applied mark |
| Wal.Wal.Append | core/src/wal.cpp:110-138 | adds one record with the next number; its payload is intact exactly when shorter than 2^32 bytes |
| Wal.Wal.MarkApplied | core/src/wal.cpp:140-148 | the applied mark never goes back |
| Wal.Wal.ReadUnapplied | core/src/wal.cpp:150-179 | from the applied mark on, exactly the records appended, whatever was truncated before |
| Wal.Wal.TruncateApplied | core/src/wal.cpp:181-209 | the rewritten file holds exactly the records above the applied mark |
| JsonText.JsonEscape | core/src/hash_chain.cpp:30-54 | the escaping loop writes the quoted string, character for character in the spelling of `SpellingExact` |
| JsonText.SpellingExact | core/src/hash_chain.cpp:30-54 | of all texts a JSON reader takes for a character the printer writes the only one that is two characters long when the style has a short escape, one when it may stand for itself, and else a hexadecimal escape in lower case |
| JsonText.StylesAgree | sdk/typescript/src/hashing.ts:30-32 | the core and the script write a string alike if and only if it holds no backspace and no form feed |
| Decimal.DecExact | core/src/hash_chain.cpp:72-76 | a number is written as the only digits without a leading zero that have its value |
| JsonText.ReadUndoesQuote | core/src/hash_chain.cpp:30-54 | a quoted string is self-delimiting and reading it per section 7 of RFC 8259 gives it back, for both printers |
| Timestamp.CivilUndo | core/src/hash_chain.cpp:119-129 | counting the days before a date undoes the calendar |
| Timestamp.YearStartExact | core/src/hash_chain.cpp:119-129 | a year starts after 365 days for every year since 1970 and one more for every leap year among them, counted in closed form by the Gregorian rule |
| Timestamp.MonthStartExact | core/src/hash_chain.cpp:119-129 | where each month starts in the year, leap years included |
| Timestamp.IsoUndo | core/src/hash_chain.cpp:119-129 | every timestamp from 1970 on is read back from its text to the millisecond |
| Timestamp.IsoExact | core/src/hash_chain.cpp:119-129 | the text is a year of at least four digits and -MM-DDThh:mm:ss.mmmZ, and each field is that of the calendar date and the time of day |
| CanonicalEvent.CanonicalJsonEvent | core/src/hash_chain.cpp:69-190 | collecting and joining the pairs gives the canonical text, in which `FieldsExact` says what stands under each key |
| EventReader.FieldsExact | core/src/hash_chain.cpp:69-190 | what is read back under each key but the payload's, by name: seven fields are null if and only if empty, the step index if negative, the actor if it has neither type nor id; all else is quoted even when empty |
| CanonicalEvent.JoinPairs | core/src/hash_chain.cpp:182-189 | the joining loop puts a comma before every pair but the first |
| EventReader.ReadUndoesCanonical | core/src/hash_chain.cpp:69-190 | the canonical text of any event, whatever its payload string, is read back to exactly its hashed fields |
| EventReader.CanonicalInjective | core/src/hash_chain.cpp:69-190 | two events have one canonical text if and only if they agree on every hashed field, "" and "null" payloads identified |
| EventReader.PayloadEnds | core/src/hash_chain.cpp:140-149 | the payload ends where the last payload_hash key starts, so it need not be valid JSON |
| EventReader.KeysAlphabetical | core/src/hash_chain.cpp:85-93 | the twenty keys of the text are in alphabetical order |
| HashChain.VerifyChain | core/src/hash_chain.cpp:226-254 | accepts exactly the valid chains; a rejection names the first bad event and everything before it is a valid chain |
| HashChain.PayloadHashPins | core/src/hash_chain.cpp:215-220 | two payloads have one hash if and only if they are the same, both empty, or collide |
| HashChain.HeadPinsHistory | core/src/hash_chain.cpp:209-213 | two valid chains with one head hash have equal length and agree on every hashed field, or two of their texts collide |
| CanonicalJson.ParseUndoesCanonical | sdk/typescript/src/hashing.ts:17-47 | for the script and the Python key order: a parser reads the canonical text back to the value with sorted keys, which denotes the same value |
| CanonicalJson.CanonicalExact | sdk/typescript/src/hashing.ts:17-47 | for both key orders: two values have one canonical text if and only if they are equal with objects as maps, so key insertion order does not show |
| CanonicalJson.CanonicalReads | sdk/typescript/src/hashing.ts:17-47 | the text is read the same way wherever a value may end |
| CanonicalJson.CanonicalIsSortedPrint | sdk/typescript/src/hashing.ts:37-44 | printing in sorted key order is printing the value whose keys were sorted first |
| CanonicalJson.SortAscending | sdk/typescript/src/hashing.ts:39 | the key sort is strictly ascending in either order and keeps the members |
| KeyOrders.OrdersAgree | sdk/typescript/src/hashing.ts:39 | code units and code points order two keys alike if and only if their first difference does not set a character from U+10000 up against one from U+E000 to U+FFFF |
| KeyOrders.ScriptTextIsPythons | sdk/typescript/src/hashing.ts:12-16 | the script's text of a value is the Python printer's if and only if no object in it, at any depth, has two such keys |
| KeyOrders.OrdersDiffer | sdk/python/controldb/hashing.py:12-26 | a value with two keys whose two texts differ |
| KeyOrders.PrintInjective | sdk/typescript/src/hashing.ts:17-47 | printing without sorting gives one text to equal values only |
| StoreEffects.FindExact | core/src/event_store.cpp:543-548 | a run is found if and only if it exists with that organisation and project, and the error says which was wrong |
| StoreEffects.StartExact | core/src/event_store.cpp:430-457 | a new run is stored as given but for an absent time or status; an existing one is answered and left alone |
| StoreEffects.CommitExact | core/src/event_store.cpp:459-477 | a committed run has status "committed" and the time of the call, and nothing else changes |
| StoreEffects.RollbackExact | core/src/event_store.cpp:479-503 | a rolled-back run has status "rolled_back", the time of the call and its reason when there is one; it fails, changing nothing, if and only if the run is not found or its metadata cannot hold the reason |
| StoreEffects.AdvanceExact | core/src/event_store.cpp:632-638 | the last event of a batch that is a start, a commit or a failure gives the run's status, and a commit or failure its closing time; without one they stay |
| StoreEffects.BatchExact | core/src/event_store.cpp:555-624 | event by event: a known key is answered with what it is bound to and nothing is stored; any other event is stored under the next number, its fields filled in or kept one by one, and answered with its id and hash |
| StoreEffects.AppendExact | core/src/event_store.cpp:536-645 | an append moves one run's head, count, status and closing time as its batch says and leaves every other field and run |
| StoreEffects.NextNumber | core/src/event_store.cpp:199-237 | numbers handed out by a failed call are skipped until the store is opened again, and then given out again |
| StoreEffects.OthersStay | core/src/event_store.cpp:430-645 | no operation changes or loses a run it does not name |
| KeyOrder.SeqKeyOrder | core/src/event_store.cpp:35-45 | eight-byte big-endian keys sort like the numbers |
| KeyOrder.SeqKeyRoundTrip | core/src/event_store.cpp:35-45 | key_to_seq undoes seq_to_key |
| KeyOrder.PrefixContiguous | core/src/event_store.cpp:658-677 | keys between a prefix and a key with that prefix have the prefix |
| KeyOrder.PutKeeps | core/src/event_store.cpp:598-607 | putting a key keeps the index ordered and adds that key only |
| StoreInvariants.StoreReachable | core/src/event_store.cpp:536-645 | in every state reached by start, append, commit, rollback, failure and reopen: chains valid up to the run's head, counts exact, event table and both indexes exact |
| StoreInvariants.ExecExtends | core/src/event_store.cpp:199-237 | no stored event is lost or changed and no number of a stored event is handed out again |
| StoreInvariants.AppendKeeps | core/src/event_store.cpp:536-645 | an append extends one run's list and keeps every table exact |
| StoreInvariants.IngestKeeps | core/src/event_store.cpp:555-624 | the loop over a batch chains the new events to the run's head with rising numbers |
| StoreInvariants.WriteAll | core/src/event_store.cpp:592-617 | the batch write puts each new event in the table and both indexes and nothing else |
| StoreResend.Resend | core/src/event_store.cpp:553-571 | a stored batch sent again after any later operations gets the same ids and hashes and changes no event, index, head or count |
| StoreResend.ResendExact | core/src/event_store.cpp:559-571 | sent again at once, a batch adds nothing if and only if each event has an id or was known the first time |
| StoreResend.AppendBinds | core/src/event_store.cpp:609-617 | after an append each key is bound to the id and hash its result named |
| StoreResend.ExecBound | core/src/event_store.cpp:559-571 | a bound key stays bound through every operation |
| Timeline.SeekLands | core/src/event_store.cpp:664-670 | seeking past the cursor lands on the run's first event above it |
| Timeline.NextLands | core/src/event_store.cpp:675-689 | moving one key on moves to the run's next event or out of its prefix |
| Timeline.RunSliceOf | core/src/event_store.cpp:598-601 | ids hold no colon, so the keys with a run's prefix are exactly those of its events |
| Timeline.TypeSliceOf | core/src/event_store.cpp:602-607 | names hold no colon, so the type index's keys with an organisation's, a project's and a type's prefix are exactly those of the events it names |
| Timeline.SessionCollects | core/src/event_store.cpp:691-694 | following cursors with appends in between never repeats or skips an event, and the last page completes the run |
| Timeline.SessionEnds | core/src/event_store.cpp:691-694 | on a fixed store a session has at most one page more than the run has events and collects them all |
| EventStore.EventStore.StartRun | core/src/event_store.cpp:430-457 | an existing run is returned and nothing changes, a new one is added; new tables and result are those of the start rule |
| EventStore.EventStore.CommitRun | core/src/event_store.cpp:459-477 | the run gets status "committed" and its closing time and keeps the rest; tables, result and errors are those of the commit rule |
| EventStore.EventStore.RollbackRun | core/src/event_store.cpp:479-503 | the run gets status "rolled_back" and its closing time and keeps all but its metadata; tables, result and errors are those of the rollback rule |
| EventStore.EventStore.AppendEvents | core/src/event_store.cpp:536-645 | the run's status and closing time are those its batch's state events say, its count grows by the events not known, its other fields and the other runs stay; tables, results and errors are those of the append rule |
| EventStore.EventStore.IngestBatch | core/src/event_store.cpp:555-624 | the loop's results, new events, head and counter are those of the rule |
| EventStore.EventStore.Timeline | core/src/event_store.cpp:647-697 | returns the first events above the cursor in order, and a next cursor, the last event's number, if and only if the page is full and some key of the index, of whatever run, lies past it; without one nothing is left |
| EventStore.EventStore.Verify | core/src/event_store.cpp:749-754 | accepts exactly when the first 5000 events the tables list form a valid chain, whatever was done to them, and otherwise names the first bad one |
| EventStore.StoreLists | core/src/event_store.cpp:749-754 | a reachable store lists each run's logged events, which verification accepts |
| EventStore.EventStore.ReadAll | core/src/event_store.cpp:691-696 | following next cursors with any limits of at least 1 ends and yields every event once in order |
| EventStore.EventStore.Browse | core/src/event_store.cpp:647-697 | pages read between any operations of the store: what was read is always the beginning of the run, and the last page completes all that was there at the start |
| EventStore.EventStore.WriteBatch | core/src/event_store.cpp:592-617 | the batch puts every new event in the table, both indexes and, under its key, the idempotency table |
| EventStore.CountAdded | core/src/event_store.cpp:628-630 | the results that are not duplicates are as many as the events added |
| Ingest.Collector.AppendEvents | services/collector/controldb_collector/ingest.py:189-345 | one transaction: refused, changing nothing, if and only if a type is unknown; else exactly the events whose key is empty or new are stored in order, each chained to the answer before it, known ones get the answer they have, and the last newly stored state change gives the status |
| Ingest.BatchExact | services/collector/controldb_collector/ingest.py:245-320 | what a batch stores and answers for each event, and which keys are bound to which answers afterwards |
| Ingest.BatchStatus | services/collector/controldb_collector/ingest.py:331-343 | the last newly stored event of the five state kinds gives the run's status; replays and other events leave it |
| Ingest.FindExact | services/collector/controldb_collector/ingest.py:245-250 | a key is known if and only if a row or another run has it; the first row decides |
| Ingest.AcceptedIds | services/collector/controldb_collector/ingest.py:245-250 | for a batch that starts among the stored events the ids answered are the ids sent |
| Ingest.Collector.Verify | services/collector/controldb_collector/ingest.py:369-415 | rebuilds each envelope from the columns of its row, accepts exactly the valid chains and names the first bad row |
| Ingest.NewEventVerifies | services/collector/controldb_collector/ingest.py:295-320 | a new event keeps an intact chain valid if and only if its actor has exactly a type and an id and its time is in UTC, or the hash collides on the hashed and the rebuilt envelope |
| Ingest.ReplayExtends | services/collector/controldb_collector/ingest.py:245-250 | a batch of events that are stored as sent, starting among the stored ones and reaching the end of them, extends the chain; one that stops short leaves the head behind |
| Ingest.LateReplay | services/collector/controldb_collector/ingest.py:200-221 | after a late batch the next new event keeps the chain if and only if that batch's last hash is the true head |
| Delivery.KeyStep | sdk/python/controldb/run.py:177 | keys of one run determine the step |
| Delivery.Run.NextStepIndex | sdk/python/controldb/run.py:102-105 | numbers count up from zero |
| Delivery.Run.BuildEvent | sdk/python/controldb/run.py:107-178 | an unknown type gives no event and takes no number; any other event gets the next number, its key, the given or default actor and the given fields |
| Delivery.Run.Emit | sdk/python/controldb/run.py:174-182 | below the batch size the event waits and nothing is sent; at it everything waiting is posted, leaving an empty buffer if and only if that succeeds |
| Delivery.Run.Flush | sdk/python/controldb/run.py:184-196 | succeeds if and only if nothing waits or the post is answered and its types are known; then everything emitted is stored and acknowledged, otherwise the buffer is as it was |
| Delivery.Run.Deliver | services/collector/controldb_collector/ingest.py:189-221 | one request is refused for an unknown type, changing nothing, or leaves exactly what was emitted stored |
| Delivery.Run.Post | sdk/python/controldb/transport.py:131-148 | succeeds if and only if one of the attempts is answered, none before it is refused and the types are known; everything emitted is then stored, each event once, if and only if an attempt arrived before a refusal |
| Delivery.Run.Finish | sdk/python/controldb/run.py:391-426 | closes the run if and only if the closing event and all before it are delivered, and then the collector has the final status; the exact outcome of commit, rollback and failure, open or closed already |
| Delivery.Run.RequestEnd | sdk/python/controldb/transport.py:131-148 | the closing request succeeds if and only if an attempt is answered before a refusal, and sets the status if and only if one arrives |
| Delivery.Drive | sdk/python/controldb/run.py:174-196 | for any calls and any lost posts and answers: stored events are a prefix of emitted ones, acknowledged events and buffer make up all emitted, verification accepts, and the status is the one the last stored state change names |
| Redaction.Noninterference | sdk/python/controldb/redaction.py:49-66 | payloads that differ only beneath keys (or in strings) whose first matching rule masks them give one output, at any depth |
| Redaction.PathOutcome | sdk/python/controldb/redaction.py:43-69 | at every path whose keys no rule names: an unmatched string and every other leaf come out as they are, a matched string as its first matching rule's mode says, lists keep their positions, dictionaries their keys, and members under a named key are masked as the first such rule says |
| Redaction.Untouched | sdk/python/controldb/redaction.py:49-66 | a payload with no named key and no matched string, at any depth, comes out unchanged |
| Redaction.FieldRuleExact | sdk/python/controldb/redaction.py:62-66 | the rule for a key is the one at i that names it when none before i does |
| Redaction.RegexRuleExact | sdk/python/controldb/redaction.py:54-58 | the rule for a string is the one at i whose expression is found in it when none before i is |
| Redaction.Walk | services/collector/controldb_collector/redaction.py:35-54 | the collector's walker gives what the SDK's recursion gives, with the outcome just said, for every payload and rule list |
| Redaction.ApplyCollectorRedaction | services/collector/controldb_collector/redaction.py:57-60 | the two entry points agree, and a payload no rule concerns is returned unchanged |
| Redaction.MemberAt | sdk/python/controldb/redaction.py:62-66 | every dictionary member comes out under its key, masked, hashed or dropped by its first field rule or redacted in turn |

## Left out

- Threads, timers, condition variables, random timeouts: actions may happen in any order, or never. `RaftProgress` says what can
  always still happen, not that it does.
- Single-node mode (`core/src/raft/node.cpp:184-190`, `:216-222`).
- 64-bit wrap-around of terms, indices and sequence numbers: unbounded here; the store's theorems assume fewer than 2^63
  sequence numbers, the record files that numbers fit in eight bytes.
- Checksums: written where `RecordLayout` says and never checked when reading, so a damaged record is read as it stands (`Frames.ParseExact`).
- LogFile.RaftLog.WriteEntry: a command whose length, taken modulo 2^32, is within 20 bytes of 2^32 makes the size of the
  C++ buffer wrap, which is undefined there; the model writes the record.
- Wal.Wal.Append: for the same reason it asks that 21 plus the payload length modulo 2^32 fits in 32 bits.
- Wal.Wal.constructor: a file with a torn tail is opened and read, but appending after the tail is not modelled, nor are
  sequence numbers reused after reopening a truncated file.
- RaftNode.RaftNode.constructor: likewise a log file with a torn tail is loaded, but appending after the tail is not modelled.
- RaftNode.RaftNode.Proposed: the answer is read from the state in which the wait ends; stopping the node, which also ends it,
  is left out.
- RaftNode.RaftNode.ApplyCommitted: a pass over a log at rest. The code reads the log without the mutex, so as written an index
  cut off during a pass is skipped; under the contract no committed index is ever cut off.
- Crashes inside other writes: saving the term and vote is one step here, while the code empties the file, writes it anew and
  does not sync it (`core/src/raft/node.cpp:37-41`), so a crash in between forgets both; a crash in the middle of appending
  a batch leaves a part of it on disk and sends no reply.
- RaftNode.RaftNode.CollectVote: a vote reply counts only towards the election that asked for it; the code gets this from the
  counters its callbacks capture, the model from the term in the message.
- RocksDB is an ordered key set and maps with atomic batches; its snapshots, options and failures inside a write are not modelled.
- The event store's own use of the write-ahead log: it is written and marked but never read back.
- EventStore.EventStore.Timeline: cursors are not negative, as every returned cursor is positive.
- `EventStore::query` over several event types, approvals, exports, keys, organisations and run listing.
- Timestamp.IsoUndo: times before 1970 are not modelled.
- CanonicalEvent.CanonicalJsonEvent: strings are sequences of characters; the model does not say which byte strings are
  valid UTF-8, on which the JSON library of the store would fail.
- CanonicalJson.CanonicalExact: numbers are the integers a double holds exactly; other numbers, lone surrogates, `undefined`
  and values JSON does not have are not modelled.
- The collector's event hash is an arbitrary function of the envelope; a time is a wall clock and an offset.
- Ingest.NewEventVerifies: actor values are strings or null, and the database is one that drops a time's zone, such as SQLite;
  one that converts to UTC loses the offset as well.
- Ingest.Collector.AppendEvents: event ids are fresh, so the branch for a clashing id (`ingest.py:322-329`) is not modelled;
  `event_count` there counts replays and nothing is claimed of it; the time a run ended is not recorded.
- EventStore.EventStore.Verify: an event whose own sequence number was altered in the table is outside its contract.
- Delivery.Drive: default step indices, no spool and no fail-open; a request is processed before the client gives up on it
  or never (`Ingest.LateReplay` says what happens otherwise); other runs' keys do not start with this run's id and a colon.
- `Transport.flush_spool`, the SDK's local hash, redaction callbacks, approvals and policy calls.
- Redaction.Walk: dictionary keys are strings and are not repeated; regular expressions are arbitrary predicates on strings.
- The TypeScript run and transport, dashboard, routes, exports, policy engine, authentication and telemetry.
