# Verified model of the sync, collection, membership and format cores

This project models five parts of the repository in Dafny and proves what they are for.

- **The sync client** (`packages/docsync`). Replicas append immutable log objects; clients pull gaps, sort every fetched
  dot into a bucket (folded, cover, held, stalled, dropped), publish the part of their frontier with nothing blocked in
  it inside a snapshot, and adopt each other's snapshots. `SyncModel` says what each call does to a client and a store;
  `SyncClient` holds the classes whose methods are proved to do exactly that; `Buckets` and `Adoption` prove the bucket
  invariant for an arbitrary classifier; `Fleet` and `FleetRuns` prove that nothing is lost in any run of any number of
  clients over one store with a sweeper; `Convergence` and `Recovery` are about bootstrapping, for any client and at the
  end of any run, and `Mirror` about copying stores. `Keys` and `FrontierCodec` are the byte formats.
- **The server half** (`openom`). `ServerModel` holds the tables and handlers as state transformers, `Server` the
  handlers as methods over mutable tables, proved equal to them. `ServerGc` proves what every step keeps of floors,
  coverage, marks and index; `Ledger` the byte accounting; `ServerRuns` the whole-run guarantees; `Meter` the token
  bucket, and `SeatQuota` what it means for one member over a run.
- **The membership chain** (`packages/keyeo-chain`, with the requirements of `packages/keyeo-core`). `Signing` is the
  signed encoding, `Quorum` the tallies against set-based requirements, `Chain` transitions, walks and starting points,
  `ChainWalks` authority, monotonicity and lockout, `ChainHistory` uniqueness of histories and compaction.
- **Codecs**: base58 and `did:key` (`Base58`, `DidKey`), and canonical JSON (`Utf16`, `Json`, `Jcs`).
- **EDTF date bounds** (`Edtf`).

`Wrappers`, `Counters`, `Bytes`, `Decimal`, `Utf8` and `Text` are shared vocabulary.

## How to read it

A call that works step by step in the original is a method here, and its contract equates the new state with a function
of the old one; the properties are lemmas about those functions. Names of modules follow the components, one per file.

Assumptions, stated once:

- Every server handler is one atomic step. `openom/src/blobs.rs:370-382` does not take the tree row lock that
  `openom/src/gc.rs:123` says the log write shares, so this is an assumption about isolation, not a fact of the code.
- Every client call is one atomic step in `Fleet`. The original's `compact` reads and then writes the snapshot in two
  store operations; the model's single step stands for the guard that the server applies when it arbitrates.
- Etags are content tags: equal tags mean equal bytes. Signature verification, key acceptance, the role ladder, the id
  and role encodings and SHA-256 are parameters; no lemma assumes the hash to be injective. Where a hash has to stand
  for its content, the conclusion is "or these documents collide".
- A founder's role is a signer's role (`ChainWalks.FoundersSign`), where a lemma asks for it.
- Counters in server log keys are canonical decimals. Rust's parser also admits a sign and leading zeros
  (`openom/src/blobs.rs:340-342`) while the SQL does not count such keys alike.

Where the code does less than its comments say:

- `packages/docsync/src/lib.rs:1018-1035` purges blockers below `c`, which starts at the pull frontier, so where the
  frontier is already past the snapshot's claim it also purges present dots at or above the claim.
  `Adoption.CodedAdoptionExactly` gives the exact condition under which the invariant survives,
  `Adoption.CodedPurgeForgesCoverage` and `FleetRuns.CodedPurgeLosesData` the state it breaks, which a run reaches, and
  the purge bounded by the claim is proved right in general.
- `packages/docsync/src/lib.rs:1030-1031` says that a present dot stays pinned. `Adoption.CodedPurgeTakesAll` and
  `Adoption.BoundedPurgeKeepsThePin` say exactly which do: as coded none of a covered replica, bounded by the claim
  those at or above it. A present dot below the claim loses its pin under either rule (`Adoption.PurgeTrustsTheClaim`).
  The bucket invariant counts a claimed dot as settled, so what carries a dot below the claim is the honesty of the
  snapshot: `Fleet.AdoptionNeedsHonesty` makes that an equivalence.
- `packages/docsync/src/lib.rs:620-647`: a failed verified pull can leave the frontier past deltas it never judged.
  `Buckets.FailedPullVerified` says exactly when, in terms of the store and the client before the call
  (`Buckets.FailedPullForgetsADelta` is one such store).
- `packages/docsync/src/lib.rs:943-968`: `maybe_compact` also reports true when `compact` declined to write
  (`FleetRuns.ReportedCompaction`, `FleetRuns.ReportWithoutWrite`).
- `packages/docsync/src/lib.rs:448-484`: a failed append takes the chain hash and does not put it back
  (`Adoption.FailedAppendForgetsTheChain`), so the next entry links to nothing (`Adoption.NextEntryLinks`).
- `packages/keyeo-chain/src/lib.rs:392-404`: a co-owner who leaves may change the rule and plant a recovery authority in
  the same document (`ChainWalks.LeavingExcusesARuleChange`).
- `packages/keyeo-chain/src/signing.rs:216-218` and `packages/keyeo-chain/src/lib.rs:317-324`: kind 2 with threshold 0
  is satisfiable and then needs no signature at all (`ChainWalks.RuleWithoutSignatures`,
  `ChainWalks.UnsignedIsAccepted`, `ChainWalks.UnsignedRuleChange`).
- `openom/src/blobs.rs:271-291`: a conditional first write of a head pointer skips the count check, so a negative count
  lowers the published head from 0 (`ServerRuns.HeadFalls`, `ServerRuns.NegativeHeadIsAccepted`).
- `openom/src/blobs.rs:202-204` says a log re-write clears the mark; no code path does (`ServerRuns.MarksStay`).
- `openom/src/blobs.rs:540` adds 1 in 64 bits: past an indexed counter of 2^63 - 1 the bound of guard (a) is the floor
  alone (`Server.Tables.RetainedBound`; a build that checks overflow fails there instead).
- `packages/format-edtf/src/lib.rs:226-236` rejects impossible days only where year, month and day are exact, so an
  accepted date may be about no day. `Edtf.SingleDateDenotes` says exactly when it is about one.

## Model

| member | source | states |
|---|---|---|
| `Buckets.SubsumedIsGreatest` | packages/docsync/src/lib.rs:707-721 | a replica's published counter is the greatest not past the pull frontier with no held or stalled dot below it, both directions |
| `Buckets.SubsumedIsSettled` | packages/docsync/src/lib.rs:707-721 | every dot a client publishes as covered is folded, a cover, suppressed or inside an adopted snapshot |
| `Buckets.PullKeeps` | packages/docsync/src/lib.rs:492-539 | a pull keeps the bucket invariant and merges only deltas of the log; one that fails still leaves no dot below the frontier unaccounted for |
| `Buckets.PullVerifiedKeeps` | packages/docsync/src/lib.rs:551-679 | a verified pull that returns Ok keeps the bucket invariant for an arbitrary classifier |
| `Buckets.FailedPullVerified` | packages/docsync/src/lib.rs:551-679 | a verified pull succeeds if and only if no held dot, listing, head or gap object it reads fails; it leaves every dot accounted for if and only if it succeeds, fails at a held dot or at the listing, or every delta between the old frontier and where the replicas listed before the failure stop was already in a bucket |
| `Buckets.FailedPullForgetsADelta` | packages/docsync/src/lib.rs:620-647 | a store with one unreadable head where the failed pull claims a delta it never folded |
| `Buckets.RetryStalledKeeps` | packages/docsync/src/lib.rs:1096-1143 | retrying stalls keeps the invariant even when it fails half way |
| `Buckets.ReadmitKeeps` | packages/docsync/src/lib.rs:813-847 | readmitting or forgetting a dropped dot keeps the invariant: it stays suppressed or becomes folded |
| `Adoption.AppendKeeps` | packages/docsync/src/lib.rs:448-484 | an append, failed or not, keeps the invariant, and every own dot stays settled |
| `Adoption.AppendStores` | packages/docsync/src/lib.rs:448-484 | a successful append stored its entry if and only if the slot was free or already held it; counter, chain hash, frontier and published head move together |
| `Adoption.FailedAppendForgetsTheChain` | packages/docsync/src/lib.rs:448-484 | exactly which failures keep the counter, and that these lose the chain hash |
| `Adoption.NextEntryLinks` | packages/docsync/src/lib.rs:448-484 | the entry written after an attempt links to that attempt's entry if and only if the attempt moved the counter; otherwise it links to nothing |
| `Adoption.AdoptKeeps` | packages/docsync/src/lib.rs:975-1049 | adoption keeps the invariant, in which a claimed dot counts as settled, under the purge bounded by the claim or a safe coded purge, and moves the frontier only over absent, claimed dots below the head |
| `Adoption.AdoptionPurges` | packages/docsync/src/lib.rs:1004-1046 | where the frontier of every replica lands, and exactly which dots stay held, stalled and dropped, under each purge |
| `Adoption.CodedPurgeTakesAll` | packages/docsync/src/lib.rs:1030-1033 | as coded, a dot below the frontier stays pinned if and only if its replica is not covered |
| `Adoption.CodedAdoptionExactly` | packages/docsync/src/lib.rs:1018-1035 | the purge as coded keeps the invariant if and only if every held or stalled dot of a covered replica lies below the claim or is settled |
| `Adoption.CodedPurgeForgesCoverage` | packages/docsync/src/lib.rs:1018-1035 | a sound client and an honest snapshot after which a present, unfolded dot is published as covered |
| `Adoption.BoundedPurgeKeepsThePin` | packages/docsync/src/lib.rs:1012-1035 | bounded by the claim, a dot below the frontier loses its pin if and only if it lies below both the claim and the head |
| `Adoption.PurgeTrustsTheClaim` | packages/docsync/src/lib.rs:1030-1035 | under either purge a present dot that an empty snapshot claims loses its pin and is published as covered |
| `Fleet.StepKeeps` | packages/docsync/src/lib.rs:448-1143 | every step of clients, store and sweeper, failed plain pulls and harmless failed verified pulls included, keeps the world sound: reclaimed dots are below an honest snapshot's coverage and inside its state |
| `Fleet.OnlyHarmlessPulls` | packages/docsync/src/lib.rs:551-679 | a verified pull keeps the world sound if and only if it is one of those |
| `Fleet.AdoptionNeedsHonesty` | packages/docsync/src/lib.rs:975-1049 | adopting keeps a client sound if and only if every dot the snapshot claims was written and its delta is in the state, with the client already, or dropped |
| `FleetRuns.HistoryIsKept` | packages/docsync/src/lib.rs:448-484 | the history of log objects only grows and never changes an entry, over any run |
| `FleetRuns.NoLoss` | packages/docsync/src/lib.rs:884-926 | in every run every delta ever appended is later still in the log or inside the current snapshot, unless a classifier dropped its dot |
| `FleetRuns.NoLossWithoutDrops` | packages/docsync/src/lib.rs:551-679 | with classifiers that accept, hold and reject, no delta is ever lost, for any number of clients and any lawful sweeping |
| `FleetRuns.CoverageGrows` | packages/docsync/src/lib.rs:884-926 | no step shrinks what the current snapshot covers |
| `FleetRuns.OverwritingARefusedSnapshot` | packages/docsync/src/lib.rs:884-926 | compacting over a refused snapshot keeps the world sound if and only if the writer's coverage reaches every reclaimed dot |
| `FleetRuns.CodedPurgeLosesData` | packages/docsync/src/lib.rs:1018-1035 | from a world that a run reaches, one coded adoption, one compaction and one lawful sweep lose a delta |
| `FleetRuns.ReportedCompaction` | packages/docsync/src/lib.rs:943-968 | a reported compaction wrote exactly when the current snapshot did not lead |
| `FleetRuns.ReportWithoutWrite` | packages/docsync/src/lib.rs:943-968 | in a world that a run reaches, a client whose coverage is incomparable with the snapshot's reports a compaction and writes nothing |
| `Convergence.BootstrapGains` | packages/docsync/src/lib.rs:1059-1064 | one bootstrap merges exactly the snapshot and the present objects it passes, and moves every lagging replica on |
| `Convergence.BootstrapConverges` | packages/docsync/src/lib.rs:1059-1064 | on an accepting channel, after as many bootstraps as its longest lag any client, fresh or returning, that merged what is present below its frontier and knows nothing else is at every head with the snapshot's state and the surviving log |
| `Convergence.ClientsAgree` | packages/docsync/src/lib.rs:492-539 | any two such clients end with the same engine state, in whatever order they walk the replicas |
| `Convergence.FreshClientsAgree` | packages/docsync/src/lib.rs:492-539 | two fresh clients among them |
| `Recovery.StepStaysGrounded` | packages/docsync/src/lib.rs:420-1143 | no step but an edit lost before it is stored gives any client or snapshot a delta that was never appended |
| `Recovery.SoundClientQualifies` | packages/docsync/src/lib.rs:1059-1064 | a client of a sound world with no blocked dot and no excuse meets the conditions of convergence, when the heads show every entry |
| `Recovery.BootstrapRecoversEverything` | packages/docsync/src/lib.rs:1059-1064 | at the end of a run without drops and lost edits, every fresh client and every client without blocked dots bootstraps to exactly the deltas ever appended |
| `SyncClient.BlobSyncClient.AppendEntry` | packages/docsync/src/lib.rs:448-484 | the new fields and store are exactly those of the specified append |
| `SyncClient.BlobSyncClient.Apply` | packages/docsync/src/lib.rs:420-434 | a local edit merges first and then appends; an empty edit does nothing |
| `SyncClient.BlobSyncClient.Pull` | packages/docsync/src/lib.rs:492-539 | the loops over heads and gaps leave exactly the specified state, for the order in which heads were listed |
| `SyncClient.BlobSyncClient.PullVerified` | packages/docsync/src/lib.rs:551-679 | drain, scan and judge in two phases leave exactly the specified state, including on failure |
| `SyncClient.BlobSyncClient.RetryStalled` | packages/docsync/src/lib.rs:1096-1143 | the loop over stalls leaves exactly the specified state |
| `SyncClient.BlobSyncClient.SubsumedFrontier` | packages/docsync/src/lib.rs:707-721 | the loop over blockers computes the subsumed frontier |
| `SyncClient.BlobSyncClient.NeedsSnapshotAdoption` | packages/docsync/src/lib.rs:730-774 | true exactly when a readable snapshot leads this client's subsumed frontier in some replica, or covers a dot it dropped |
| `SyncClient.BlobSyncClient.Compact` | packages/docsync/src/lib.rs:884-926 | the snapshot is written exactly when the current one does not lead, otherwise nothing changes |
| `SyncClient.BlobSyncClient.MaybeCompact` | packages/docsync/src/lib.rs:943-968 | policy, growth test and report as specified |
| `SyncClient.BlobSyncClient.AdoptSnapshotBaseline` | packages/docsync/src/lib.rs:975-1049 | refusal, restore, advance over holes and purge leave exactly the specified state |
| `SyncClient.BlobSyncClient.ReadmitDropped` | packages/docsync/src/lib.rs:813-840 | a dropped dot is readmitted, forgotten or left as specified |
| `SyncClient.BlobSyncClient.ForgetDropped` | packages/docsync/src/lib.rs:845-847 | the dot leaves the dropped set and its presence is reported |
| `SyncClient.BlobSyncClient.Bootstrap` | packages/docsync/src/lib.rs:1059-1064 | adoption of any snapshot that opens, then a pull of the tail |
| `SyncClient.BlobSyncClient.BootstrapVerified` | packages/docsync/src/lib.rs:1074-1083 | adoption of a trusted snapshot, then a verified pull |
| `Mirror.Mirror` | packages/docsync/src/lib.rs:1158-1221 | the copying loops leave exactly the specified target, copy count and outcome |
| `Mirror.MirrorIsSafe` | packages/docsync/src/lib.rs:1158-1221 | one pass, even a failed one, keeps every target object, lowers no head, and raises a head only over objects present or reclaimed |
| `Mirror.SecondPassIsIdle` | packages/docsync/src/lib.rs:1158-1221 | a second pass over the same source copies 0 and changes nothing |
| `Mirror.UpThenDown` | packages/docsync/src/lib.rs:1158-1221 | mirroring up then down leaves equal heads and, below them, equal logs outside what either store reclaimed, also where an object lay above a lagging head |
| `Keys.LogKeyRoundTrip` | packages/docsync/src/lib.rs:159-172 | a written log key reads back if and only if the replica name is legal and the counter fits 64 bits |
| `Keys.ParsedLogKey` | packages/docsync/src/lib.rs:165-172 | a key that parses is the canonical one if and only if its counter has no sign and no leading zero |
| `Keys.HeadKeyRoundTrip` | packages/docsync/src/lib.rs:184-195 | a written head key reads back if and only if the replica name is legal |
| `Keys.FamiliesDisjoint` | packages/docsync/src/lib.rs:159-210 | log, head and snapshot keys of a document never coincide |
| `Keys.LogKeyInjective` | packages/docsync/src/lib.rs:159-161 | distinct dots have distinct log keys |
| `FrontierCodec.EncodeFrontier` | packages/docsync/src/lib.rs:215-228 | the writing loop produces the framed encoding |
| `FrontierCodec.DecodeFrontier` | packages/docsync/src/lib.rs:231-253 | the reading loop accepts exactly well-formed encodings and folds their entries into a map |
| `FrontierCodec.DecodeOfEncode` | packages/docsync/src/lib.rs:215-253 | an encoded frontier followed by any bytes decodes to the frontier and exactly those bytes |
| `FrontierCodec.EncodeOfDecode` | packages/docsync/src/lib.rs:231-253 | whatever decodes is the encoding of what was read, then the rest |
| `FrontierCodec.ToMapOfDistinct` | packages/docsync/src/lib.rs:243-252 | the map rebuilt from distinct entries holds exactly those |
| `ServerGc.StepKeeps` | openom/src/gc.rs:103-273 | every handler keeps: floor within published coverage, coverage within max(floor, indexed counter + 1), coverage bound to the live snapshot, marks only on log rows below the floor |
| `ServerGc.StepRatchets` | openom/src/blobs.rs:485-605 | no handler lowers a floor or a published counter |
| `ServerGc.MarkLiftsTo` | openom/src/gc.rs:48-59 | one mark lifts a covered replica's floor exactly to the old floor or to the coverage where every active member reported at least as much |
| `ServerGc.MarkFrame` | openom/src/gc.rs:169-218 | a mark changes nothing but floors and the marks of rows that meet all its conditions |
| `Ledger.StepKeepsLedger` | openom/src/meter.rs:263-293 | every handler keeps used bytes equal to the charges of the account's rows, log rows charged their size, and usage within the cap |
| `Ledger.ReapCredits` | openom/src/meter.rs:373-389 | a reap takes out exactly what the row put in; the clamp at 0 never takes effect |
| `Ledger.ChargeMoves` | openom/src/meter.rs:263-293 | an accepted charge raises usage by the size only for accumulating writes, and only within the cap |
| `ServerRuns.ReachableIsSound` | openom/src/gc.rs:103-273 | all of the above in every reachable state of every run from empty tables |
| `ServerRuns.Ratchets` | openom/src/gc.rs:169-188 | floors and published counters never decrease between any two points of a run |
| `ServerRuns.AcceptedIsKept` | openom/src/blobs.rs:355-427 | an accepted log dot is indexed or below its floor in every later state |
| `ServerRuns.ReadsAreTruthful` | openom/src/blobs.rs:612-681 | not-found means never written and not below the floor, served bytes are those of an accepted put, gone means below the floor |
| `ServerRuns.NoResurrection` | openom/src/blobs.rs:355-382 | a log dot is accepted at most once in a run and never once it is below the floor |
| `ServerRuns.MarksStay` | openom/src/blobs.rs:202-234 | a row that stays keeps creation time and charge at every step, and its mark but where a mark step takes it |
| `ServerRuns.HeadFalls` | openom/src/blobs.rs:239-328 | a published head falls if and only if the step is a conditional put of a negative count to a free head slot that the meter lets by |
| `ServerRuns.NegativeHeadIsAccepted` | openom/src/blobs.rs:271-291 | the put of "-5" to an empty tree, after which the head reads -5 |
| `ServerRuns.HeadsNeverFall` | openom/src/blobs.rs:271-291 | without such writes no head ever moves backward |
| `Server.Tables.ChargeWrite` | openom/src/meter.rs:203-300 | token bucket first, then the cap; a refusal leaves both tables as they were |
| `Server.Tables.ChargeCreate` | openom/src/meter.rs:302-345 | one token of the account's own bucket, nothing for an unknown account |
| `Server.Tables.CreditStorage` | openom/src/meter.rs:373-389 | the account's usage falls by the bytes, not below 0; nothing else changes |
| `Server.Tables.UpsertIndex` | openom/src/blobs.rs:205-234 | object and row are written; an overwrite keeps creation time, mark and charge |
| `Server.Tables.PutLogBlob` | openom/src/blobs.rs:355-427 | refusal order, charge and write of an immutable log object, as specified |
| `Server.Tables.PutPointerBlob` | openom/src/blobs.rs:239-328 | conditional and unconditional pointer writes, with the head count check |
| `Server.Tables.RetainedBound` | openom/src/blobs.rs:528-540 | the greatest indexed counter gives a bound on exactly the counters that the tree retains, but for the wrap of its 64-bit successor, which leaves the floor |
| `Server.Tables.ClaimsTooMuch` | openom/src/blobs.rs:521-547 | guard (a) decides exactly whether some claim exceeds what is retained |
| `Server.Tables.FallsBelowFloor` | openom/src/blobs.rs:548-559 | guard (b) decides exactly whether some floored replica is missing or too low |
| `Server.Tables.GoesBack` | openom/src/blobs.rs:560-568 | guard (c) decides exactly whether some published counter would regress |
| `Server.Tables.ReplaceCoverage` | openom/src/blobs.rs:582-601 | the tree's rows become the claim bound to the new tag; other trees' rows stay |
| `Server.Tables.PutSnapshotBlob` | openom/src/blobs.rs:485-605 | header check, three guards, charge, write and replacement of the coverage |
| `Server.Tables.PutBlob` | openom/src/blobs.rs:159-200 | size cap, tree lookup and dispatch over the three kinds of write |
| `Server.Tables.PutFrontier` | openom/src/frontier.rs:63-104 | a current member's report is upserted per replica with clamped counters |
| `Server.Tables.Gate2` | openom/src/gc.rs:65-96 | groups exactly the in-window reports of current members |
| `Server.Tables.Constraint` | openom/src/gc.rs:48-59 | nothing without members, else the attained minimum with absent replicas at 0 |
| `Server.Tables.MarkTree` | openom/src/gc.rs:103-222 | the loop over trusted coverage raises floors and marks rows exactly as specified, and counts the marks |
| `Server.Tables.ReapDue` | openom/src/gc.rs:227-273 | exactly the rows marked no later than the grace allows go; every other row stays as it was |
| `Server.Tables.ReapMarked` | openom/src/gc.rs:227-273 | rows still marked are deleted and credited one by one; counts of rows and bytes are exact |
| `Meter.WindowBound` | openom/src/meter.rs:227-243 | from s to t at most burst + rate * (t - s) writes are admitted, and tokens never go negative |
| `SeatQuota.SeatBound` | openom/src/meter.rs:203-300 | over a stretch of a run from s to t the server accepts at most burst + rate * (t - s) of a member's puts to a tree, as long as the member is not removed |
| `SeatQuota.RemovalRefills` | openom/src/access.rs:85-110 | a member who is removed and listed again finds the bucket full |
| `Meter.DebitTakesOne` | openom/src/meter.rs:227-243 | an admitted write takes exactly one token and leaves no debt |
| `Meter.WaitingIsEnough` | openom/src/meter.rs:244-261 | a member that waits the returned Retry-After (section 10.2.3 of RFC 9110) is admitted; with no refill it never is |
| `Signing.WriteSignedBytes` | packages/keyeo-chain/src/signing.rs:72-123 | the buffer-appending encoder produces the framed encoding of every signed field |
| `Signing.SigningBytesInjective` | packages/keyeo-chain/src/signing.rs:72-153 | equal signed bytes if and only if equal signed fields, for lengths below 2^32 and injective encodings |
| `Quorum.MoreApprovers` | packages/keyeo-core/src/quorum.rs:26-39 | a satisfied requirement stays satisfied with more approvers |
| `Quorum.DedupKeys` | packages/keyeo-chain/src/signing.rs:159-167 | the loop keeps the first occurrence of each key and nothing else |
| `Quorum.CountIsDistinct` | packages/keyeo-chain/src/signing.rs:183-192 | the tally is the number of distinct approving keys |
| `Quorum.AnyIsAny` | packages/keyeo-chain/src/signing.rs:172-179 | any-of decides the requirement Any on the approving keys |
| `Quorum.AllIsAll` | packages/keyeo-chain/src/signing.rs:196-206 | unanimity decides the requirement All, the empty list included |
| `Quorum.ThresholdIsThreshold` | packages/keyeo-chain/src/signing.rs:210-220 | the threshold tally decides the requirement Threshold, 0 included |
| `ChainWalks.TallyRefinesRequirement` | packages/keyeo-chain/src/lib.rs:269-311 | the prior rule is met if and only if its set-based requirement is satisfied by the approving keys, for every kind |
| `ChainWalks.RuleChangesMeetTheRule` | packages/keyeo-chain/src/lib.rs:387-409 | an accepted privileged change that is not a self-removal satisfies the prior anchor's requirement |
| `ChainWalks.MoreSignaturesNeverHurt` | packages/keyeo-chain/src/lib.rs:357-433 | adding or repeating signatures never rejects an accepted document nor changes its anchor |
| `ChainWalks.RuleWithoutSignatures` | packages/keyeo-chain/src/signing.rs:210-220 | with no approving key the rule is met if and only if it is kind 2 or 3 with threshold 0 |
| `ChainWalks.UnsignedIsAccepted` | packages/keyeo-chain/src/lib.rs:357-433 | a document without signatures is accepted if and only if it chains on, is privileged, the prior rule is one of those two, its own rule is satisfiable and it rotates no recovery authority |
| `ChainWalks.UnsignedRuleChange` | packages/keyeo-chain/src/lib.rs:317-324 | such a document: an unsigned change of the rule after kind 2 with threshold 0 |
| `ChainWalks.AcceptedIsSigned` | packages/keyeo-chain/src/lib.rs:376-413 | an accepted document is signed under a prior signer's key unless the prior rule is one of those two |
| `ChainWalks.SoundDocsAreWellFormed` | packages/keyeo-chain/src/lib.rs:175-201 | a document that passes the structural checks yields one founder and distinct signer keys |
| `ChainWalks.WalkAuthority` | packages/keyeo-chain/src/lib.rs:443-449 | every hop of an accepted walk is so signed and chained, revisions count up by one in one group, and every anchor is well formed |
| `ChainWalks.RecoveryIsPinned` | packages/keyeo-chain/src/lib.rs:414-423 | a pinned recovery authority stays pinned until a hop that it signed itself |
| `ChainWalks.WalksStaySatisfiable` | packages/keyeo-chain/src/lib.rs:317-324 | satisfiability of the rule is kept by every accepted walk |
| `ChainWalks.NoLockout` | packages/keyeo-chain/src/lib.rs:357-433 | a chained document with a satisfiable rule signed by all current signers, and by the recovery key it rotates, is accepted |
| `ChainWalks.NoLockoutAfterAnyWalk` | packages/keyeo-chain/src/lib.rs:357-449 | the same after any accepted walk |
| `ChainWalks.FullApprovalMeets` | packages/keyeo-chain/src/lib.rs:304-324 | everybody's approval meets the rule if and only if it is not a threshold above the number of signers; how the satisfiability guard differs |
| `ChainWalks.ThresholdTooHighLocksOut` | packages/keyeo-chain/src/lib.rs:317-324 | from a threshold above the number of signers no privileged change passes but a self-removal |
| `ChainWalks.LeavingExcusesARuleChange` | packages/keyeo-chain/src/lib.rs:392-404 | a leaving co-owner changes a founder-only rule and plants a recovery authority |
| `ChainWalks.GenesisIsOwn` | packages/keyeo-chain/src/lib.rs:500-520 | an accepted genesis is revision 1, has the caller as its only founder and is signed by it |
| `ChainWalks.ResetKeepsAuthority` | packages/keyeo-chain/src/lib.rs:463-489 | an accepted reset is well formed, self-signed, and carries and was signed by the pinned authority |
| `ChainHistory.HistoryIsUnique` | packages/keyeo-chain/src/lib.rs:357-449 | two non-empty accepted walks from one anchor to one digest agree hop by hop on everything signed, or exhibit a collision |
| `ChainHistory.WalkSplits` | packages/keyeo-chain/src/lib.rs:443-449 | a walk can be taken in two parts |
| `ChainHistory.PinAcceptsOwnDocument` | packages/keyeo-chain/src/lib.rs:533-559 | the walk's own document is accepted at its pin if and only if one of its own signers signed it |
| `ChainHistory.Reanchor` | packages/keyeo-chain/src/lib.rs:533-559 | from any document accepted at the walk's pin the tail leads to exactly the full walk's anchor, or a collision |
| `ChainHistory.CompactChoosesGreatest` | packages/keyeo-chain/src/lib.rs:606-640 | the checkpoint is the greatest revision the cut and policy allow, exactly what lies below is pruned, and none is made exactly when nothing lies below |
| `ChainHistory.CompactOnce` | packages/keyeo-chain/src/lib.rs:606-640 | after pruning, the same cut and policy have nothing more to do |
| `ChainHistory.CompactionPreservesMeaning` | packages/keyeo-chain/src/lib.rs:562-640 | a compacted walk re-anchored at its checkpoint gives the full walk's anchor |
| `Base58.Multiply` | packages/did/src/lib.rs:203-207 | the in-place carry loop multiplies and adds; the carry stays below the factor, 256 or 58 |
| `Base58.MulAddIsMulAdd` | packages/did/src/lib.rs:201-212 | on the digits of n the loops give the digits of n * factor + add, canonical again |
| `Base58.B58Encode` | packages/did/src/lib.rs:198-221 | the encoder computes leading ones and the base-58 digits of the rest |
| `Base58.B58Decode` | packages/did/src/lib.rs:223-246 | the decoder computes the bytes, or nothing for a character outside the alphabet |
| `Base58.DecodeOfEncode` | packages/did/src/lib.rs:198-246 | decoding undoes encoding for every byte string |
| `Base58.EncodeOfDecode` | packages/did/src/lib.rs:198-246 | encoding undoes decoding for every alphabet string |
| `Base58.DecodesAlphabetStrings` | packages/did/src/lib.rs:223-230 | decoding succeeds if and only if every character is in the alphabet |
| `DidKey.WriteEd25519` | packages/did/src/lib.rs:38-46 | writes 56 characters that start `did:key:z6Mk` and from which the key is read back |
| `DidKey.ReadEd25519` | packages/did/src/lib.rs:53-66 | accepts exactly the identifiers of keys, and returns the only key with that identifier |
| `DidKey.EveryIdStartsZ6Mk` | packages/did/src/lib.rs:37-46 | every identifier starts `did:key:z6Mk`, has 56 characters and is within the length cap |
| `DidKey.DecodeOfEncodeKey` | packages/did/src/lib.rs:38-66 | every 32-byte key is read back from its identifier |
| `DidKey.EncodeOfDecodeKey` | packages/did/src/lib.rs:38-66 | an accepted identifier is the one its key is written as |
| `DidKey.AcceptedIffEncoded` | packages/did/src/lib.rs:53-66 | accepted if and only if it is the identifier of some key |
| `Utf16.Utf16Cmp` | packages/format-jcs/src/lib.rs:158-170 | the loop over two unit streams computes the order of UTF-16 code units |
| `Utf16.KeyOrderIsTotal` | packages/format-jcs/src/lib.rs:158-170 | a total order consistent with equality (section 3.2.3 of RFC 8785) |
| `Utf16.AscendingIsUnique` | packages/format-jcs/src/lib.rs:138-140 | sorted keys are one sequence, whatever order the map gave them |
| `Jcs.WriteString` | packages/format-jcs/src/lib.rs:175-201 | the bytes of the minimally escaped literal (section 3.2.2.2 of RFC 8785) |
| `Jcs.WriteValue` | packages/format-jcs/src/lib.rs:112-155 | appends the canonical text's bytes, or reports the first fault in writing order |
| `Jcs.FaultIff` | packages/format-jcs/src/lib.rs:112-126 | a value is refused if and only if it holds a float or nests deeper than the limit |
| `Json.ParseOfText` | packages/format-jcs/src/lib.rs:112-201 | a parser recovers every float-free value from its canonical text and leaves what follows |
| `Jcs.ToCanonical` | packages/format-jcs/src/lib.rs:45-49 | the canonical bytes or the fault |
| `Jcs.CanonicalIsReadable` | packages/format-jcs/src/lib.rs:45-49 | every float-free value of depth at most 128, and no other, has canonical bytes, and is recovered from them |
| `Jcs.CanonicalIsInjective` | packages/format-jcs/src/lib.rs:112-201 | equal bytes if and only if equal values, objects taken as maps |
| `Jcs.CanonicalIsStable` | packages/format-jcs/src/lib.rs:239-246 | canonicalising the reparse gives the same bytes |
| `Jcs.WriteSubset` | packages/format-jcs/src/lib.rs:58-67 | canonical bytes of the named members, absent names skipped, or a refusal of non-objects |
| `Jcs.WriteExcluding` | packages/format-jcs/src/lib.rs:74-83 | canonical bytes of the members not named |
| `Jcs.SelectionDetermines` | packages/format-jcs/src/lib.rs:51-67 | selected bytes agree if and only if the objects agree on the selected members |
| `Edtf.ParseDigitsRange` | packages/format-edtf/src/lib.rs:266-284 | the loop computes the low and high reading of digits and X |
| `Edtf.RangeIsTight` | packages/format-edtf/src/lib.rs:266-284 | both readings match the pattern and every matching number lies between them |
| `Edtf.PartsCover` | packages/format-edtf/src/lib.rs:142-253 | every real day that the digits, wildcards or season denote lies within the bounds |
| `Edtf.BoundsAreReal` | packages/format-edtf/src/lib.rs:142-321 | the bounds of an accepted date are real days in order |
| `Edtf.BoundsCover` | packages/format-edtf/src/lib.rs:63-110 | the same for whole texts: qualifiers, years before 0, seasons, intervals with open and closed sides |
| `Edtf.ResultIsOrdered` | packages/format-edtf/src/lib.rs:63-110 | min and max are real and ordered; exactly the open sides of an interval lack a bound |
| `Edtf.ExactDay` | packages/format-edtf/src/lib.rs:226-253 | a fully given date is bounded by one day, the only one it denotes |
| `Edtf.SingleDateDenotes` | packages/format-edtf/src/lib.rs:142-253 | an accepted date is about some day if and only if it has no day part, or some year and month that it admits are long enough for its first day |
| `Edtf.ShortDateDenotes` | packages/format-edtf/src/lib.rs:142-204 | an accepted year, month or season is always about some day |
| `Edtf.ThreePartsDenote` | packages/format-edtf/src/lib.rs:206-253 | the same equivalence for three parts, whatever their sign |
| `Edtf.ImpossibleDayIsAccepted` | packages/format-edtf/src/lib.rs:226-253 | the texts 1985-02-3X and 19X1-02-29 are accepted, with bounds at the end of February, and are about no day |
| `Edtf.BoundsAttained` | packages/format-edtf/src/lib.rs:226-253 | exactly when the earliest and the latest day are days the date is about |
| `Edtf.ClampedBoundDoesNotMatch` | packages/format-edtf/src/lib.rs:238-248 | the text 1985-0X-31 is about days, but not about the last one of its bounds |
| `Edtf.RealDaysRoundTrip` | packages/format-edtf/src/lib.rs:142-253 | every real day of the years -9999 to 9999, written out, parses to exactly itself |

## Left out

- HTTP routing, authentication, roles other than current membership for frontier reports, tracing and configuration.
- SQL isolation: each transaction is one atomic step, so the branches that handle lost races cannot occur.
- Blob key syntax (length, segments, `.` and `..`), the bare key `heads`, and head keys with further segments.
- The coverage header's base64 and JSON: a put carries the decoded map, or nothing where it is malformed.
- Account plan changes, tree deletion and transfer of ownership: no handler of the modelled files does them.
- Read metering and the monthly usage roll-up: best-effort counters that no guard reads.
- Media storage: its meter updates are separate statements, so conservation would rest on atomicity the code lacks.
- Invites, access summaries beyond who is a member, accounts, proposals and trees: short compare-and-set handlers.
- The batch cursor of `run_log_gc`: any order and choice of trees to mark is a run of the model.
- Cryptography, the AEAD envelope and postcard: parameters, or tagged pairs of kind and plaintext.
- The committer passed to the engine's merge, and engines whose merge is not idempotent and commutative: an engine is
  the set of deltas merged into it.
- Store puts that fail after taking effect: a failed access leaves the model's store as it was.
- 64-bit overflow of the client's own counters, and the iteration order of its ordered maps: every order is covered.
- `Fleet.StepKeeps`: failed verified pulls in runs are the harmless ones, because the others forget a delta
  (`Fleet.OnlyHarmlessPulls` is the equivalence).
- `Recovery.BootstrapRecoversEverything`: an edit that fails before its entry is stored stays in the engine and never
  reaches the log, so runs with one are left out.
- `FleetRuns.NoLoss`: adoption steps with the coded purge are those whose purge is safe, because the unsafe ones lose
  data; the bounded purge has no such condition.
- `Mirror.UpThenDown`: logs are compared outside the dots that either store has reclaimed, because a reclaimed dot is
  reported by one store only, and below the final heads, because mirroring reads no further.
- `Json.ParseOfText`: integers are unbounded, a superset of the 64-bit numbers of the original.
- `Edtf.BoundsCover`: bounds are not claimed to be attained; when they are is `Edtf.BoundsAttained`.
- `EdtfError` and `JcsError` messages: the variants are kept, their texts are not.
- The library sort of object keys is an insertion here; its result is unique (`Utf16.AscendingIsUnique`).
- The growable vectors of the original codecs are sequences held in local variables.
