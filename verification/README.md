# A model of the evidence-bearing message bus

The bus carries messages between agents and keeps evidence of it: a hash-chained,
signed notary log on the machine that serves a remote agent, receipts on the
remote side, and a log of every cursor move in the bus itself. This project
models those parts in Dafny and proves what they promise each other.

`dafny verify dfyconfig.toml` checks everything.

## What is modelled

* **Canonical text** (`CanonicalJson`, `SdsEnvelope`): the profile of RFC 8785 that
  every hash rests on, the record id and the signed message. The text of a value
  determines the value, and no order of insertion shows in it.
* **Notary log** (`NotaryLog`, `NotaryVerify`, `NotaryCompare`, `AckPairing`,
  `Reasons`, `CursorFold`, `Reconcile`): the writer with its chained entries and
  checkpoints, and the checkers that read an export: `verify`, `compare`,
  the pairing of acks with audit rows, and `reconcile`. The theorems about them are in
  `VerifyHonest`, `VerifyTrust`, `CompareForks` and `CursorTheorem`.
* **Bus store** (`BusState`, `Enforce`, `BusOps`, `AgentBus`, `AuditChain`): the tables,
  every operation as a step from state to state, and a class that changes the
  tables in place and is proved against those steps. Theorems over runs:
  `SkipAccounting`, `StrictClamp`, `ProductRecv`, `ReplayMatching`.
* **Exchange** (`Exchange`, `Endpoint`, `RemoteClient`): one round at the bus machine,
  in which every note and every effect can fail, running on the live bus and the
  live notary; and the client that acknowledges, stores and keeps receipts.
  `LogFirst`, `LossyLink`, `LostMail`, `ReplyPage`, `HonestRound`, `HonestRun`,
  `OwnEntries`, `ForeignRound`, `HonestVerdict` and `HonestExact` hold the theorems that
  span both sides, the log and its checker.
* **Smaller protocols**: chunked content-addressed transfer (`AttachStore`,
  `AttachTransfer`), the single-owner lock (`SessionLock`, `LockExclusion`), and the
  nonce cache of signed requests (`NonceCache`, `NonceOnce`).

Where the program changes things step by step, the model does so too: classes with
fields (`Notary`, `BusStore`, `RoundServer`, `Remote`, `Store`, `SessionLock`,
`NonceAuth`, `AuditTable`) and methods with loops, each equated by its contract with a
function on values. The theorems are about those functions, over all inputs
and all runs.

## Assumptions

SHA-256, Ed25519, the clock, the registry of keys, process and pane liveness, and
Python's `str`, `int`, `isalnum` and `json.dumps` are function parameters. Where a theorem needs it, it
asks for a collision-free hash (`CollisionFree`, `TellsApart`, `TellsContents`,
`HashTells`), for the notary's own signatures to verify (`SignsFor`), or for
signatures under its key to exist only for payloads in its log (`NotarySigned`). A
call of an operation is one atomic step, and the clock and the key registry are read
once in a call, and once for all the rows of a round.
The clock of the nonce cache never goes back, and nothing else writes its file.

## What does not hold

* A slice reported as `trusted` may begin with an entry whose `seq` is no integer:
  the loop of `verify` neither links nor counts it. The numbered entries are always a
  true prefix, and the whole slice is one exactly if every `seq` is an integer
  (`TrustedWholeSliceIff`, with `TrustedYetNoPrefix` as the counterexample).
* The cursor fold also holds an ack below the next id named by a round that handed
  out everything, once any round since the last ack was truncated
  (`WholeRoundsBindToo`). `CursorFoldIsTheDeclarativeCheck` is exact for the code as it
  is; `CleanFoldSparesTruncatedMail` says when truncated rounds alone decide.
* An honest run, in either mode, can be accused in four ways, and in no other
  (`CleanExactlyWithoutReservedKinds`). The client sends a message of kind `ack` or
  `pickup`, which is not counted as sent. Under strict, another identity's message of such
  a kind is taken in for it, and reads as an entry without numbers (`StrayMessageAccuses`).
  Strict or not, another's message of kind `ack` to it is refused, by the bus or for want
  of a signature, between a round whose ack moved the cursor and the next one, and reads as
  if that ack had failed (`RefusedAckAccuses`). Under strict, a round with a strict ack
  hands out nothing while the ack is held back, and the next one is not strict: the cursor
  moves with no round entry since the ack before (`LooseAckAccuses`); no other change of
  modes or strictness does that (`SteadyNeverLeaps`).
* A reply that the client's own bus refuses is dropped, yet counted as stored and
  acknowledged for good (`RefusedEnvelopeIsLost`, `LostForGood`). The client holds every
  message exactly if its bus takes each of them (`NothingIsLostExactly`), which is so
  where both buses judge bodies alike (`NothingIsLost`).
* A client that stops after it stored replies and before it saved how far it came stores
  them a second time: each once, unless the save is missed (`MissedSaveStoresTwice`).
* The unsigned tail of a log reaches the signing interval by calls whose signature raised
  after the entry was written, one entry each (`UnsignedTailIsShort`).
* The water level steps over letters when more than 500 wait and the first 500 are
  reported delivered. `LevelAfterMark` says exactly when it stays honest.
* Identifiers checked with a pattern that ends in `$` may carry one trailing
  newline. In a signed envelope it is not covered by the signature
  (`MessageDetermines`), and nothing is ever stored under such an attachment name
  (`NewlineNameNeverStored`).

## Model

| member | source | states |
|---|---|---|
| CanonicalJson.JcsStr | sds_envelope.py:48-63 | The escaping loop yields the quoted text of the string, piece by piece in order |
| CanonicalJson.TextInjective | sds_envelope.py:66-89 | Two values with the same canonical text are equal, over null, bool, safe int, string, list and map |
| CanonicalJson.TextUnique | sds_envelope.py:66-89 | No canonical text continues another one, so what follows a value is never read as part of it |
| CanonicalJson.DictOrderFree | sds_envelope.py:82-86 | The text of a dictionary does not depend on the order in which its keys were inserted |
| CanonicalJson.KeyOrderTotal | sds_envelope.py:82-86 | UTF-16 code unit order is a strict total order on keys, so sorting leaves no choice |
| SdsEnvelope.RecordIdDetermines | sds_envelope.py:92-95 | Two records with the same id agree on every field but the id itself |
| SdsEnvelope.MessageDetermines | sds_envelope.py:148-155 | Two envelopes give the same signed bytes exactly if all signed fields agree up to a trailing newline of an id |
| NotaryLog.EntryHashDetermines | bus_notary.py:115-119 | The entry hash determines every hashed field and the presence and content of the cursor |
| NotaryLog.CkptBodyInjective | bus_notary.py:122-125 | The signed payload determines number, head, time and key of a checkpoint |
| NotaryLog.Notary.constructor | bus_notary.py:172-185 | A notary on a fresh log; its signing interval is at least one entry, whatever is asked for |
| NotaryLog.Notary.ReadTail | bus_notary.py:196-209 | One pass over the file finds the last number, the last hash and the entries since the last signature |
| NotaryLog.Notary.Record | bus_notary.py:237-310 | The file after a call is the file before with at most one entry and one checkpoint, exactly as the step function says |
| NotaryLog.Notary.WriteCheckpoint | bus_notary.py:317-333 | The operator's signature covers the current head and changes nothing else |
| NotaryLog.Notary.ExportFrom | bus_notary.py:393-398 | An export is the entries from a number on and the latest checkpoint |
| NotaryLog.RecordKeeps | bus_notary.py:237-310 | Every call keeps numbering, chain and signed heads, and appends exactly its own entry when it succeeds |
| NotaryLog.RecordBoundsTail | bus_notary.py:301-306 | A successful call leaves fewer unsigned entries than the interval, however many there were; any other at most one more |
| NotaryLog.CheckpointKeeps | bus_notary.py:312-333 | Signing keeps the log well built and leaves nothing unsigned |
| NotaryLog.EveryLogIsWellBuilt | bus_notary.py:237-333 | Any sequence of calls leaves a chained, consecutively numbered, correctly signed log |
| NotaryLog.LogGrows | bus_notary.py:237-310 | What was written stays, in place, whatever is called later |
| NotaryLog.UnsignedTailIsShort | bus_notary.py:301-306 | Over any run the unsigned tail stays below the interval plus the calls whose signature raised |
| NotaryLog.BackwardAgreement | bus_notary.py:115-119 | One shared hash makes two linked runs of entries agree backwards from there |
| NotaryLog.FromSeqOfChain | bus_notary.py:393-398 | A chained log exports exactly its entries from the asked number to the head |
| NotaryVerify.Verify | bus_notary.py:401-504 | The verifying loop computes the report defined by the fold over the records |
| VerifyHonest.HonestExportVerifies | bus_notary.py:401-504 | A well-built log's export verifies from any entry, and is anchored from the first |
| VerifyHonest.HonestUnverifiedTail | bus_notary.py:468-471 | From the first entry, the unverified tail is what the writer has not signed yet |
| VerifyHonest.EveryWriterLogVerifies | bus_notary.py:237-504 | For every sequence of record and checkpoint calls, the export from any entry verifies |
| VerifyHonest.EveryWriterTailIsShort | bus_notary.py:301-504 | And from the first entry the unverified tail is below the interval, plus one for each call whose signature raised |
| VerifyTrust.TrustedSliceIsPrefix | bus_notary.py:401-504 | The numbered entries of a trusted slice agree in order, on every hashed field, with the first entries the notary wrote |
| VerifyTrust.AnyAlterationShows | bus_notary.py:115-119 | With any JSON in any field: a linked run that ends in a hash the notary wrote is the notary's, entry by entry and field by field |
| VerifyTrust.TrustedWholeSliceIff | bus_notary.py:401-504 | The whole slice is a true prefix exactly if every seq is an integer |
| VerifyTrust.LeadingForeignEntryUnnoticed | bus_notary.py:415-440 | A well-hashed leading entry with a non-integer seq changes nothing in the verdict |
| VerifyTrust.TrustedYetNoPrefix | bus_notary.py:415-440 | A concrete trusted slice that is no prefix of the notary's log |
| NotaryCompare.Compare | bus_notary.py:507-550 | The comparison returns the first failing check in order of its number, or agreement over at least one |
| NotaryCompare.VerdictMeaning | bus_notary.py:526-550 | A fork is reported exactly if some check fails, agreement exactly if there is a check and none fails |
| NotaryCompare.ChecksMeaning | bus_notary.py:507-550 | All checks pass exactly if lines, heads, crossings and links of the two slices agree |
| CompareForks.GrowingLogNeverForks | bus_notary.py:507-550 | Two exports of one growing log, from any entries and at any times, are never a fork |
| CompareForks.TouchingSlicesSound | bus_notary.py:507-550 | If overlapping or adjacent slices compare as the same, the logs agree up to the last number both reach |
| CompareForks.TouchingSlicesExact | bus_notary.py:507-550 | On entries alone, such slices compare as the same exactly if the logs agree that far |
| AckPairing.PairAcks | bus_notary.py:638-670 | The nested loops leave exactly the log acks beyond the number of audit rows of their step |
| AckPairing.AckMismatches | bus_notary.py:638-670 | The items reported are the reportable ones among those |
| AckPairing.GreedyIsMultisetDifference | bus_notary.py:638-670 | For each step the number of mismatch items is the log's count minus the audit's, at least 0 |
| AckPairing.AccusedAreReported | bus_notary.py:638-670 | An entry is reported exactly if its rank among its equals is beyond the audit's count |
| AckPairing.DeletionAccusesNoOne | bus_notary.py:638-670 | Striking one ack from the log never makes another logged ack accused |
| Reasons.RoundReasonRoundTrip | bus_notary.py:554-562 | Reading a written round reason gives its two numbers back |
| Reasons.AckReasonRoundTrip | bus_notary.py:555-556 | Reading a written ack reason gives its three numbers back |
| CursorFold.FollowCursor | bus_notary.py:1120-1243 | The loop over the entries computes the cursor fold |
| CursorTheorem.CursorFoldIsTheDeclarativeCheck | bus_notary.py:1120-1243 | No cursor discrepancy exactly if acks and rounds continue the path, no target exceeds its ack, and no ack steps over waiting mail |
| CursorTheorem.CleanFoldSparesTruncatedMail | bus_notary.py:1120-1243 | A clean fold means no ack reaches a next id of a truncated round; and exactly that if whole rounds name none |
| CursorTheorem.WholeRoundsBindToo | bus_notary.py:1144-1153 | A concrete log on which the next id of a whole round makes the fold stricter |
| CursorTheorem.SkipsExactly | bus_notary.py:1194-1204 | The test on the merged rounds is the test on the rounds themselves |
| Reconcile.CountLog | bus_notary.py:1060-1065 | One pass counts the entries that count as sent by the identity and as delivered to it |
| Reconcile.Outcomes | bus_notary.py:1069-1078 | The first outcome line of a round counts, and contradicting later ones are named |
| Reconcile.CountSent | bus_notary.py:1080-1102 | The mail of proven and of presumed rounds, by envelope hash |
| Reconcile.CountGot | bus_notary.py:1103-1107 | The mail received over all receipts, by envelope hash |
| Reconcile.CountAcks | bus_notary.py:1244-1250 | The acks of proven and presumed rounds, and whether any round is presumed |
| Reconcile.ReconcileLog | bus_notary.py:1059-1287 | The whole reconciliation without a second record: findings in both directions, the cursor's, and the verdict |
| BusState.HighWaterBounds | agent_bus.py:876 | The high water mark is the agent's highest id, or 0 |
| BusState.PageIsPrefix | agent_bus.py:773-777 | A page is the first mail above the cursor, and leaves nothing out below its last id |
| AgentBus.BusStore.Send | agent_bus.py:609-677 | A message is refused by the size, range and shape rules, or added under the next id |
| AgentBus.BusStore.PeekPage | agent_bus.py:749-805 | A peek consumes nothing; product mode names each rejected row once |
| AgentBus.BusStore.Consume | agent_bus.py:749-831 | A consuming receive moves cursor, water level, read marks, audit and store as the step says, or changes nothing on an enforcement error |
| AgentBus.BusStore.SiftRows | agent_bus.py:785-793 | The rows of a page are judged one by one against the store as it grows |
| AgentBus.BusStore.AckPreview | agent_bus.py:874-890 | The target is never behind the cursor, goes no further than asked for and allowed, but as far as that, and is where the ack then puts the cursor |
| AgentBus.BusStore.Acknowledge | agent_bus.py:1158-1176 | The cursor moves forward only, up to the clamp, and the row counts unread mail it passes |
| AgentBus.BusStore.PendingBlockingIds | agent_bus.py:948-984 | The rows above the cursor that may still come out, oldest first |
| AgentBus.BusStore.Level | agent_bus.py:1117-1131 | The water level is just below the first row still to come, or the high water mark |
| AgentBus.BusStore.MarkAsDelivered | agent_bus.py:1082-1144 | Permanently rejected ids are refused; the others are read, recorded one by one, and the level recomputed |
| AgentBus.BusStore.Reconcile | agent_bus.py:1179-1226 | The lifeboat lists mail passed undelivered and rejected mail never delivered since, minus what was replayed |
| AgentBus.BusStore.ReplayCandidate | agent_bus.py:1276-1306 | One candidate is carried as a signed copy or wrapped, or ends the replay if send refuses it |
| AgentBus.BusStore.ReplayLost | agent_bus.py:1229-1310 | A committed replay carries the candidates in order |
| SkipAccounting.SkipsAreConserved | agent_bus.py:819-828 | In every dev-mode run the mail up to the cursor splits into handed out and skipped, all of it is read, and the log's skip numbers sum to the skipped |
| SkipAccounting.StepEffect | agent_bus.py:1121-1176 | What each operation does to one agent's accounts, whoever it is for |
| StrictClamp.StrictAckSkipsNoLetter | agent_bus.py:874-880 | With strict acks every letter up to the water level was delivered, the cursor stays at or below it, and only replay rows can be skipped |
| StrictClamp.NoReplaysNoSkips | agent_bus.py:1164-1170 | Without replay rows nothing is skipped and every skip number is 0 |
| StrictClamp.LevelAfterMark | agent_bus.py:1108-1141 | Reporting delivery keeps the level honest exactly if a row of the first 500 stays open or every letter is delivered |
| ProductRecv.ReceiveSplitsPage | agent_bus.py:785-816 | Each page splits into fresh rows (read, handed out) and rejected rows (one audit row each, counted in the recv_mark row); an error changes nothing |
| ProductRecv.SiftSplits | bus_enforce.py:226-263 | A row is kept exactly if it passes the gate and its signed content is neither in the store nor earlier on the page |
| ProductRecv.EachContentOnce | bus_enforce.py:106-139 | Over any run no signed content is let through to an agent twice |
| ReplayMatching.ReplaysAreAMatching | agent_bus.py:1229-1310 | In every state each original was replayed at most once and no copy was ever replayed |
| ReplayMatching.ReplayCarriesAllLost | agent_bus.py:1229-1310 | A dev-mode replay of the whole list carries every lost message not involved before |
| AuditChain.AuditTable.AppendRow | agent_bus.py:342-357 | A row continues its agent's own chain |
| AuditChain.VerifyChain | agent_bus.py:1004-1046 | The checking loop computes the report on hashes, links, numbers and anchor |
| AuditChain.EveryTableIsChained | agent_bus.py:342-357 | Every agent's rows form one chain, however the appends interleave |
| AuditChain.EveryExportVerifies | agent_bus.py:987-1046 | Every export passes; by itself it counts as anchored exactly from the first row, and from a later row with the hash before it |
| AuditChain.VerifiedExportIsTheChain | agent_bus.py:1004-1046 | A verified export from the first row that ends in a hash of the chain is exactly the chain up to there |
| Endpoint.RoundServer.Note | bus_ssh_exchange.py:76-86 | A note writes its entry or stops the round |
| Endpoint.RoundServer.TakeAck | bus_ssh_exchange.py:111-123 | The cursor step is logged before the cursor moves, and a failed move is corrected |
| Endpoint.RoundServer.TakeMessage | bus_ssh_exchange.py:125-164 | Receipt is logged before the insert, a failed insert after it |
| Endpoint.RoundServer.TakeMessages | bus_ssh_exchange.py:125-164 | The messages are taken one after another |
| Endpoint.RoundServer.NoteReplies | bus_ssh_exchange.py:269-273 | One delivered entry per reply |
| Endpoint.RoundServer.MarkHandedOut | bus_ssh_exchange.py:274-280 | The page is marked delivered, or the failure is logged |
| Endpoint.RoundServer.CloseRound | bus_ssh_exchange.py:287-299 | The close names its round, and its failure is only reported |
| Endpoint.RoundServer.GiveReplies | bus_ssh_exchange.py:236-302 | Round entry, deliveries, mark and close, and only then the replies |
| Endpoint.RoundServer.Serve | bus_ssh_exchange.py:65-302 | The whole round on the live bus and log equals the step function |
| LogFirst.RoundIsLogFirst | bus_ssh_exchange.py:111-302 | Whatever fails, each insert and cursor move directly follows its own entry, and replies leave behind one delivered entry each |
| LogFirst.TraceIsTheRound | bus_ssh_exchange.py:65-302 | Log, messages and cursor after the round are exactly what the trace's effects make of them |
| LogFirst.RepliesLeaveLast | bus_ssh_exchange.py:239-302 | A stopped round hands out nothing, and handing out is the last effect otherwise |
| RoundPass.RoundPreserves | bus_ssh_exchange.py:76-302 | What every note of a round keeps, the round keeps, wherever it stops |
| RemoteClient.Remote.Begin | bus_ssh_client.py:117-132 | The request and its ack go on record before sending |
| RemoteClient.Remote.Keep | bus_ssh_client.py:172-193 | Replies newer than the highest stored one are stored in order, and the highest advances |
| RemoteClient.Remote.Finish | bus_ssh_client.py:133-193 | The outcome goes on record, and whatever replies came are stored |
| RemoteClient.Remote.DoRound | bus_ssh_client.py:109-193 | One client round as a step |
| LossyLink.ExactlyOnceInOrder | bus_ssh_client.py:176-193 | Under any losses and failures the client has copied each message that its own bus takes, up to its highest number, once and in order, and the server's cursor is not beyond it |
| LossyLink.RoundsMakeProgress | bus_ssh_exchange.py:220-281 | A completed round with unstored mail advances the client, unless a strict ack is held back |
| LossyLink.LossesNeverStall | bus_ssh_exchange.py:111-123 | Where only the link fails, every completed round with unstored mail advances |
| LossyLink.LevelCoversPage | agent_bus.py:1108-1131 | Reporting a page raises the water level at least to its end |
| LostMail.NothingIsLostExactly | bus_ssh_client.py:176-193 | In every reachable state the client holds one row per message up to its highest number exactly if its own bus takes each of them |
| LostMail.NothingIsLost | bus_ssh_client.py:41-54 | That is so where both buses judge bodies alike, since no namespaced sender outgrows a field |
| LostMail.RefusedEnvelopeIsLost | bus_ssh_client.py:180-189 | An envelope the client's own bus refuses is dropped and counted as stored |
| LostMail.MissedSaveStoresTwice | bus_ssh_client.py:176-193 | After a missed save the same replies are stored once more, and the highest number ends where it would have |
| LostMail.LostForGood | bus_ssh_client.py:176-193 | Mail once lost is never had back, whatever follows |
| OwnEntries.RunFollows | bus_notary.py:1120-1243 | Over one's own entries, the fold over all entries goes along with the fold over one's own and finds nothing new |
| OwnEntries.RunBack | bus_notary.py:1182-1204 | Once a refusal took the last ack back, the next own ack is accused |
| ForeignRound.TheirRoundGoesOn | bus_ssh_exchange.py:125-164 | A whole round of another identity flags its strays, takes back the last ack by its refusals, and does nothing else to one's own fold |
| ForeignRound.ThroughStraysExactly | bus_ssh_exchange.py:125-164 | Which messages those are: to the identity, of kind ack or pickup, signed where a signature is asked for, or refused for want of one |
| ReplyPage.QueueFacts | bus_ssh_exchange.py:220-235 | In either mode a round that leaves mail behind names a number beyond a full page, so out of reach of what it hands out |
| ReplyPage.InReachStays | agent_bus.py:773-777 | What is in reach of the page stays so, as mail comes in and the cursor goes forward |
| HonestVerdict.HonestRunsAreAccusedExactly | bus_notary.py:1059-1287 | In either mode an honest run is accused exactly if another's refused ack misled it or, strictly, another's message strayed in or its cursor leapt, and the findings say so |
| HonestVerdict.SteadyNeverLeaps | bus_notary.py:1188-1193 | The cursor leaps only where a strict round is followed by one that is not |
| HonestVerdict.HonestRunsAreNeverAccused | bus_notary.py:1059-1287 | In either mode complete rounds, among other activity, reconcile strictly with no discrepancy and nothing unresolved, where no other identity sends one a message of kind ack or pickup and no round loosens the ack of the one before |
| HonestRun.RoundKeepsSound | bus_ssh_exchange.py:65-302 | Every round keeps the log well built, whatever fails in it |
| HonestVerdict.ExportSound | bus_notary.py:393-504 | The full export of such a log holds its entries and verifies |
| HonestRound.OwnAck | bus_ssh_exchange.py:111-123 | The ack puts the cursor at its target, held back or not, and raises no finding but a leap |
| HonestRound.OwnMessages | bus_ssh_exchange.py:125-164 | Each message adds exactly its own hash to the sent count and nothing else |
| HonestRound.OwnHandOut | bus_ssh_exchange.py:220-302 | What is handed out, filtered or not, adds exactly its hashes to the delivered count, and what stays behind is out of reach |
| HonestExact.CleanExactlyWithoutReservedKinds | bus_notary.py:1059-1287 | Such a run reconciles cleanly exactly if none of the identity's messages has kind ack or pickup, no refused ack of another misled it and, strictly, no message of another strayed in and its cursor never leapt |
| HonestExact.LooseAckAccuses | bus_notary.py:1188-1193 | A strict round without replies while its ack is held back, then one that is not strict, gets it accused under strict |
| HonestExact.StrayMessageAccuses | bus_notary.py:1162-1218 | Any message of kind ack or pickup that another's round takes in for the identity gets it accused under strict |
| HonestExact.RefusedAckAccuses | bus_notary.py:1182-1204 | Another's message of kind ack that the bus refuses, or product mode for want of a signature, between an ack that moved the cursor and the next round, gets it accused, strict or not |
| HonestExact.LongBodyIsRefused | agent_bus.py:611-612 | Such a message: one whose body is beyond the limit, in either mode |
| AttachStore.Store.PutData | bus_attach.py:113-129 | Content is stored once under its hash; what is there is checked, never overwritten |
| AttachStore.Store.GetData | bus_attach.py:131-139 | Content is returned exactly if the descriptor is well formed and what is stored under it has that size and hash |
| AttachStore.Store.Cut | bus_attach.py:145-151 | The generated pieces are numbered, in order, and only the last is marked |
| AttachStore.Store.Receive | bus_attach.py:172-236 | One piece continues, completes, restarts or is refused, as the step says |
| AttachTransfer.ObjectsAreForever | bus_attach.py:113-236 | Under any calls every object hashes to its name and never changes |
| AttachTransfer.RefusalLeavesLive | bus_attach.py:186-235 | A refused piece leaves a live transfer as it was, unless the whole fails its check |
| AttachTransfer.OutOfOrderIsRefused | bus_attach.py:190-223 | A piece out of order or oversize is refused and changes nothing |
| AttachTransfer.OrphanIsRestarted | bus_attach.py:190-213 | A piece 0 restarts an orphaned transfer if there is room; what had arrived stays in the work files |
| AttachTransfer.NewlineNameNeverStored | bus_attach.py:226-236 | Nothing is ever stored under a name with a trailing newline |
| AttachTransfer.TransferArrivesWhole | bus_attach.py:145-236 | Feeding all pieces in order makes get return the original bytes, also over an orphaned transfer, and with other contents, refused pieces and puts in between |
| AttachTransfer.PiecesCover | bus_attach.py:149 | The number of pieces is the least that covers the data, and 1 for none |
| AttachTransfer.PutThenGet | bus_attach.py:113-139 | What was put can be had back |
| SessionLocks.SessionLock.TryAcquire | bus_singleflight.py:353-396 | The gate, the fast path, the refresh, the refusal and the reclaim |
| SessionLocks.SessionLock.Beat | bus_singleflight.py:426-441 | Only the holder refreshes, and keeps its strategy unless it names a new one |
| SessionLocks.SessionLock.Unlock | bus_singleflight.py:453-462 | Only the holder's record is removed |
| LockExclusion.AcquiredIsAlive | bus_singleflight.py:242-294 | A record written with acquired passes as alive at that instant, in every strategy |
| LockExclusion.AcquiredExactly | bus_singleflight.py:353-396 | A call is granted exactly if its gate is open and the lock is free or its other holder is not alive |
| LockExclusion.NoSecondGrant | bus_singleflight.py:353-462 | Between two grants to different instances the holder released, or its own record did not pass as alive |
| LockExclusion.HeldWhileAlive | bus_singleflight.py:353-462 | While the holder keeps the lock and passes as alive, nobody else is granted it |
| NonceCache.NonceAuth.constructor | bus_relay.py:145-184 | A start loads the live keys, rewrites the file, and without a file accepts nothing signed earlier |
| NonceCache.NonceAuth.DropExpired | bus_relay.py:201-203 | Exactly the keys older than twice the window are dropped |
| NonceCache.NonceAuth.CheckRequest | bus_relay.py:186-217 | A request passes the band, the signature and the cache, and is remembered in memory and file |
| NonceOnce.MemoryLasts | bus_relay.py:157-217 | Within twice the window a key stays remembered through any check, rewrite or restart, and is refused |
| NonceOnce.NeverAcceptedTwice | bus_relay.py:186-217 | One (purpose, agent, time stamp, nonce) is accepted at most once, across any restarts |

## Left out

- NotaryLog.EntryHashDetermines: is about the canonical text, not its UTF-8 bytes, and about entries whose fields have the writer's JSON types (`seq` excepted)
- NotaryVerify.Verify: reports neither the `backdated` list nor the text-only ack target violations, and takes checkpoint numbers as integers
- NotaryCompare.Compare: gives the verdict and the first divergence, not the overlap range and the count of compared numbers
- VerifyTrust.TrustedSliceIsPrefix: reads slices whose hashed fields keep the writer's JSON types (`seq` excepted); `AnyAlterationShows` is about fields of any type, without the rest of `verify`
- CompareForks.TouchingSlicesExact: is for slices without checkpoints; with them, `TouchingSlicesSound` holds and heads are compared as well
- AckPairing.PairAcks: is the pairing by cursor step; the later pairing by position, the round attribution and the anchors of the audit cross-check are left out
- Reconcile.ReconcileLog: collects findings as sets, has no second record (`bus_audit`), and begins after the shape gates on malformed rows
- CursorTheorem.CursorFoldIsTheDeclarativeCheck: is for entries with structured cursors and without rejected acks
- Reasons.RoundReasonRoundTrip: digits are ASCII; the pattern's other Unicode digits are not modelled
- AgentBus.BusStore.Send: takes a signature and its key as given; automatic signing, the check of a pre-signed row and the JSON mirror are left out
- AgentBus.BusStore.Consume: the filter on envelope signatures after a product-mode receive drops rows from the answer only; it is modelled where the exchange reads, not here
- AgentBus.BusStore.MarkAsDelivered: a failing pending query (the raw fallback) is not modelled
- AgentBus.BusStore.ReplayLost: the copy and its row are one step; a crash between them is not modelled
- Endpoint.RoundServer.Serve: the texts of exceptions, attachments and downloads within a round, a request that is no JSON object, and a round without a notary are left out
- Endpoint.RoundServer.TakeAck: the cursor is not moved by anyone else between preview and ack
- RemoteClient.Remote.Keep: the stamp and the thread that the local bus adds to a stored row are not recorded
- LossyLink.ExactlyOnceInOrder: is for dev mode, and leaves out what the client's own bus refuses (`LostMail` says when that is nothing)
- HonestVerdict.HonestRunsAreAccusedExactly: takes integers up to 2^63-1, the table's own limit, and one reading of the clock for all rows of a round
- Endpoint.RoundServer.TakeMessage: a `thread_id` that is a number or a truth value is kept as its text
- AttachStore.Store.Receive: keeps the size of all work files as a counter instead of walking the directory
- SessionLocks.SessionLock.TryAcquire: instance names are taken after sanitising, and an unreadable lock file is not modelled
- NonceCache.NonceAuth.CheckRequest: a signature is a yes or no with the request
- Cryptography, SQLite, files, ssh, HTTP, threads and environment variables appear only as parameters or atomic steps
- The JSONL seen-store of bus_enforce.py, which the database store replaced in the receive path
- Message claims, the relay's spool and rate limits, enrolment, wake-up and reporting scripts
