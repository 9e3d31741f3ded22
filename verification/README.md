# AMS memory server: a verified model

A Dafny model of the memory server of AMS (the `mem0-server` component): the record-write protocol and
its audit ledger, the one-time tokens, the supersession links, the episodic sidecar, and the ranking,
gating and judging around a search. `dafny verify dfyconfig.toml` checks all of it.

## How it is built

**The write protocol.** `Records` is the stored payload, `Security` the write policy, `Supersession` the
supersede door's refusal matrix and payloads, `ReplayStore` the nonce file, `Carryover` what a PUT carries
over. `Handlers` gives the six handlers (PUT, PATCH /tier, PATCH /metadata, the NLI stamp, supersede,
unsupersede) as the steps they take under their record locks; one step is one call of the store or the
ledger, and any call may fail before it applies or lose its answer after. `Machine` runs any number of such
requests with gates, a lock table, the ledger lock and the nonce file. `HandlerFacts` states what each
handler relies on at each of its steps. `Gates` and `Effects` say, by the stored keys, what each gate makes of
a request and what an answered, refused or failed one comes to, in its record and in the ledger; `Alone` runs
one whole request on a quiet server. Over every interleaving then:

- `Serializability`: the store is the one a serial order of the locked regions leaves.
- `Authority`: tier moves, and writes whose gate saw a protected record, were signed for.
- `Audit`: every tier change, hide and un-hide was announced in the ledger first; without failures the
  ledger alone rebuilds tiers and links.
- `Progress`: no deadlock, and every request comes to its end.
- `Forest`, `Flight` and `Lifecycle`: adds and deletes take no record lock, so they may land between any two
  steps of any request, and the process may restart with requests in flight; over any such history the links
  stay a forest that hides nothing protected and, without a re-brand, never leads out of a reader's sight.

`Server` is the same six handlers as code that changes the store and the ledger in place; each method is
proved to take exactly the steps of `Handlers`. `PutVerify` is the verify loop of PUT against a store that
may drop any key. `Cascade` is DELETE with its walk over the links.

**The episodic sidecar.** `RunningSummary` is the text algebra of the running summary, `Episodes` the table
of unfinished episodes that holds it, `GoalLinks` the goal-link table with its migration and merge.

**Search and judging.** `Fusion`, `Reranker` and `Admission` follow one search; `Judge` and `Spend` are the
judge's retry loop and the monthly spend cap. `Lists` and `Sorting` are plain sequence facts.

A missing tier reads as canonical in every write gate (`Records.EffTier`). Only the admission gate reads
the raw tier, and lets a record without one pass, as the code does.

## Where a claim needed a condition

- A token can be accepted twice if a request waits more than 300 s between its skew check and the nonce
  file: `ReplayStore.SlowReplayIsAccepted` is such a run, `ReplayStore.AcceptedIffNonceExpired` is the exact
  rule, and `ReplayStore.TokenAcceptedOnce` holds under the 300 s bound.
- The opening segment of a running summary can be lost when it is empty and only gap markers follow it;
  `RunningSummary.OpeningSegmentStaysIff` says that this is the only case, `RunningSummary.OpeningCanBeLost`
  that it happens.
- Merging a goal into itself would drop all its links; `GoalLinks.MergeIsUnionIff`. The endpoint refuses it.
- A PATCH /metadata may re-brand a record, which can take a winner out of its loser's sight
  (`Lifecycle.RebrandHidesTheWinner`). `Lifecycle.RebrandKeepsKinIff` says exactly which merges do not; the
  visibility results hold over histories without a re-brand.
- `fusion.configure` changes constants that the ranking never reads: the defaults of `rrf` are fixed when the
  module is loaded and the caller passes none (mem0-server/fusion.py:80-83, mem0-server/fusion.py:128-141). The
  documentation says the configured constants are the ones in force; the model follows the code. The search
  ranks as configured if and only if those defaults are what was configured (`Fusion.RanksAsConfiguredIff`);
  for the older embedding space they are not (`Fusion.ConfiguredSpaceIsIgnored`).
- A PUT whose every read of the stored record fails answers 200 (`PutVerify.PostVerify`,
  `PutVerify.NoCheckIffNoAnswer`).
- PUT on a record without a tier writes `tier=canonical` when its first check runs: the raw tier appears, the
  effective tier does not change (`Audit.ChangesAreAnnounced` is about the effective tier).

## Model

| member | source | states |
|---|---|---|
| `Security.MetadataPatchNeverHides` | mem0-server/security_invariants.py:302-346 | No label, proven or not, writes a supersede-door key through PATCH /metadata; `contradicts_canonical` only the proven sweep, never on a canonical record; `retrievable` only two proven jobs. |
| `Security.PatchAllowedIff` | mem0-server/security_invariants.py:302-346 | A metadata patch passes exactly when each of its keys is the label's to write and a canonical record is not hidden. |
| `Security.TokenNeededIff` | mem0-server/security_invariants.py:648-722 | By the stored tier and the label: who needs the service key, and exactly which writes need a token. |
| `Gates.PutGate` | mem0-server/app.py:2329-2374 | The PUT gate refuses a claimed label and an unread tier, asks for a "put" token exactly on a locked record, and lets everything else on. |
| `Gates.MetadataGateIs` | mem0-server/app.py:2753-2804 | What the PATCH /metadata gate refuses, asks a token for and lets on, as one case split by label, keys and stored tier. |
| `Gates.TierGateIs` | mem0-server/app.py:2551-2681 | Into canonical only the two user paths against "promote", out of canonical or insight against "demote", into insight only consolidators, the rest unsigned. |
| `Gates.TokenStepIs` | mem0-server/security_invariants.py:494-609 | The token step presents the request's own headers for its action and its record, and the request goes on exactly if they are accepted. |
| `Supersession.DoorAdmitsExactly` | mem0-server/supersession.py:121-179 | The refusal matrix lets through exactly: two different live records of one user and one brand scope, the loser unprotected and not hidden by another, the winner not hidden. |
| `Supersession.RefusalIsTrue` | mem0-server/supersession.py:121-179 | Whatever refusal is given, the call breaks the rule it names, by the stored keys. |
| `Supersession.RepeatIsNoop` | mem0-server/supersession.py:182-189 | Right after a granted supersession the same call is recognised as already done. |
| `Supersession.ClearUndoesSupersede` | mem0-server/supersession.py:275-300 | Supersede then unsupersede gives the payload back apart from `updated_at`. |
| `Supersession.PartialListKeepsNewest` | mem0-server/supersession.py:197-201 | Over any number of partial supersessions the list holds the newest 20 entries ever recorded, in order. |
| `ReplayStore.ReplayFile.CheckAndRecord` | mem0-server/security_invariants.py:370-432 | The nonce is accepted exactly when no live line carries it; the file becomes the old lines, or their live ones, plus the new entry, and is untouched on a refusal. |
| `ReplayStore.ReplayFile.Validate` | mem0-server/security_invariants.py:494-609 | A token is accepted exactly as `ReplayStore.OnlyTheSignedClaimPasses` says, and it is checked before its nonce is burned: a bad one never changes the file. |
| `ReplayStore.OnlyTheSignedClaimPasses` | mem0-server/security_invariants.py:566-609 | If one claim was signed, exactly the attempts carrying its time, nonce, action, record and reason with its mac pass, within 300 s and with a nonce unseen for 600 s. |
| `ReplayStore.FileStaysFresh` | mem0-server/security_invariants.py:370-432 | An accepted token becomes the last line; from one megabyte on only entries of the last 600 s stay before it, below that all lines do. |
| `ReplayStore.FileIsAcceptedSet` | mem0-server/security_invariants.py:370-432 | Within 600 s of the last clock reading the file holds exactly the accepted tokens, across appends and GC rewrites. |
| `ReplayStore.AcceptedIffNonceExpired` | mem0-server/security_invariants.py:370-432 | Over any run a well-signed token passes if and only if every earlier acceptance of its nonce has left this check's 600 s window. |
| `ReplayStore.NonceReuseIsFarApart` | mem0-server/security_invariants.py:566-609 | Two acceptances of one nonce carry timestamps more than 300 s apart, less the time between the later request's two clock readings. |
| `ReplayStore.TokenAcceptedOnce` | mem0-server/security_invariants.py:566-609 | No (ts, nonce) token is accepted twice while requests reach the nonce file within 300 s of their skew check. |
| `ReplayStore.SlowReplayIsAccepted` | mem0-server/security_invariants.py:566-609 | Without that bound it is false: a run that accepts one token twice. |
| `Carryover.PutKeepsPayload` | mem0-server/payload_carryover.py:39-64 | Under mem0's update contract a PUT changes exactly seven keys: text, digest, lemmas and time are new, the three judged-text markers go; every other key keeps its value and none appears. |
| `HandlerFacts.StepIsKept` | mem0-server/app.py:2375-2519 | Every step of every handler keeps what the handler relies on, touches one record only, and changes its tier or link only by the announced write. |
| `HandlerFacts.StepIsLocal` | mem0-server/app.py:2859-2865 | A step under the locks depends only on the locked records. |
| `Machine.MutualExclusion` | mem0-server/app.py:646-652 | Two requests never hold the same record. |
| `Machine.ReachableInv` | mem0-server/app.py:646-652 | In every reachable state the lock table, the ledger lock and every request's knowledge of its records are right. |
| `Serializability.HandlersAreSerializable` | mem0-server/app.py:616-652 | Any interleaving ends in the store a serial order of the locked regions produces, each region once and run to its end; on the way every record outside a region already has that value. |
| `Authority.TierMovesAreSigned` | mem0-server/app.py:2586-2725 | A step that changes an effective tier is the write of a PATCH /tier request whose accepted token, with the request's own mac, signs "promote" of that record to enter canonical, "demote" of it to leave canonical or insight for anything else. |
| `Authority.ProtectedWritesAreSigned` | mem0-server/security_invariants.py:648-722 | A PUT or PATCH /metadata in its locked region whose gate saw canonical or insight had a token accepted whose mac signs that action on that record, but for the proven labels the policy names. |
| `Authority.TokensAreNotShared` | mem0-server/security_invariants.py:566-609 | Two requests never stand on one (ts, nonce) token, as long as every request reaches the nonce file within 300 s of its skew check and the nonce file's clock does not go back. |
| `Audit.ChangesAreAnnounced` | mem0-server/app.py:2707-2725 | With failures anywhere, a change of tier or link does what an intent line of that very request, written earlier in the run, announced. |
| `Audit.AChangeHappens` | mem0-server/app.py:2682-2725 | Runs with such a change exist: one unsigned tier change up to its write. |
| `Audit.OneChangePerRequest` | mem0-server/supersession.py:266-271 | Two changes in one run never belong to the same request, so each has its own line. |
| `Audit.FailedAppendWritesNothing` | mem0-server/supersession.py:266-271 | In any interleaving, no step of a request whose intent append fails changes the store, before the failure or after it. |
| `Audit.LedgerRebuildsMarks` | mem0-server/supersession.py:292-297 | When nothing failed, replaying the run's lines over the initial store rebuilds every tier and every link. |
| `Progress.NeverDeadlocks` | mem0-server/app.py:2859-2865 | While a request is unfinished some request can step: sorted record locks, ledger lock last. |
| `Progress.EveryRequestFinishes` | mem0-server/app.py:1068-1082 | A run of n requests takes at most 120 n + 1 steps, and one that cannot go on has finished them all. |
| `Effects.SupersedeHappens` | mem0-server/supersession.py:237-272 | An admitted full supersession happens: four answered calls leave the loser pointing at the winner, stamped, otherwise unchanged, with the intent line written and the completion line to come. |
| `Effects.PartialSupersedeHappens` | mem0-server/supersession.py:192-201 | A partial one adds its entry at the end of the list, behind the newest nineteen, and hides nothing. |
| `Effects.DoorIsShut` | mem0-server/supersession.py:121-179 | By the stored keys: what the door never lets through. |
| `Effects.RefusedSupersedeDoesNothing` | mem0-server/supersession.py:237-272 | What the door refuses or what is recorded already changes nothing and leaves no line, whatever the calls answer. |
| `Effects.UnsupersedeHappens` | mem0-server/supersession.py:275-300 | Clearing a recorded supersession takes exactly the keys of its scope away and stamps the time, behind its intent line. |
| `Effects.ClosedClearDoesNothing` | mem0-server/supersession.py:275-300 | A clear of a protected, missing or unsuperseded record, or with a bad scope, changes nothing and leaves no line. |
| `Effects.TierChangeHappens` | mem0-server/app.py:2682-2725 | An open tier change, signed or unsigned, sets tier, time and actor and nothing else, behind its intent line. |
| `Effects.ClosedMoveDoesNothing` | mem0-server/app.py:2682-2725 | An unsigned exit from canonical or insight, and the promotion of a superseded record, change nothing and leave no line. |
| `Effects.MetadataPatchHappens` | mem0-server/app.py:2800-2810 | Every patched key has its value, the time is stamped, no other key and no other record changes. |
| `Effects.NliStampHappens` | mem0-server/app.py:830-839 | The stamp names the canonical record it was judged against. |
| `Effects.PutHappens` | mem0-server/app.py:2375-2519 | An answered PUT leaves the new text with its digest and lemmas, every other key as it was, and one memory-update line. |
| `Effects.PutGivesATier` | mem0-server/app.py:2425-2480 | On a record without a tier the first check misses it, the write-back stores canonical, the re-check is clean. |
| `Effects.LostTierIsReported` | mem0-server/app.py:2487-2502 | If the tier cannot be written back in any of the four rounds the PUT ends without its ledger line. |
| `Effects.FailedFirstCallEnds` | mem0-server/app.py:2375-2402 | A PUT, tier change, supersede or unsupersede whose first call fails ends there with the store as it was, whatever follows. |
| `Alone.RequestAlone` | mem0-server/app.py:646-652 | On a quiet server the machine takes the locks, runs the region the handler method runs, frees the locks and writes the completion line, and nothing else. |
| `Alone.SupersedeAlone` | mem0-server/app.py:2859-2895 | An admitted supersede request, all calls answered, goes from arrival to its end with the link written and both ledger lines in order. |
| `Forest.NewLinkKeepsAcyclic` | mem0-server/supersession.py:121-179 | A link to a record that has none cannot close a cycle. |
| `Forest.ForestInEveryState` | mem0-server/supersession.py:312-320 | In every state of every interleaving the links are a forest and nothing protected is hidden; without a re-brand they stay within one user and brand scope. |
| `Lifecycle.BornOpen` | mem0-server/app.py:1455-1516 | A record is born with a tier, never canonical, insight only for the proven consolidator, and never hidden, whatever metadata is sent. |
| `Lifecycle.AdmittedIff` | mem0-server/app.py:1453-1483 | An add passes exactly without a tier, as evidence or temporal, or as insight from a consolidator proven by the service key. |
| `Lifecycle.BornWithItsMetadata` | mem0-server/app.py:1485-1516 | Key by key what an added record holds: text, times, session ids, the caller's metadata but for the reserved keys, evidence as the default tier. |
| `Flight.StepStays` | mem0-server/app.py:646-652 | With adds and deletes landing between its steps, a handler's step still touches its subject only, and every request in flight keeps what it may rely on: its subject is gone, or its knowledge holds, or it held until its winner was deleted. |
| `Flight.DeleteStays` | mem0-server/app.py:4139-4227 | A delete between any two steps leaves every request in flight with that. |
| `Flight.StepKeepsForest` | mem0-server/supersession.py:237-272 | A step of any request in flight keeps the forest, also one that links to a winner deleted since it was read. |
| `Lifecycle.ForestForever` | mem0-server/supersession.py:121-179 | Over every history of handler steps, arrivals, adds, deletes and restarts, in any order, the links stay a forest and no record is both hidden and protected; without a re-brand they stay within one user and brand scope. |
| `Lifecycle.ChainStaysVisible` | mem0-server/admission_gate.py:223-245 | A scope that may see a hidden record may see every existing record after it on its chain, and all belong to one user. |
| `Lifecycle.BrandAdmitsIff` | mem0-server/admission_gate.py:223-245 | A scope sees a record exactly if its brand is missing, shared or the scope's own, or if a scope without a brand asked for all. |
| `Lifecycle.HistoryKeepsChainsVisible` | mem0-server/supersession.py:158-169 | At every point of any history that re-brands nothing, a scope that may see the first record of a chain may see every existing one on it. |
| `Lifecycle.FitsIffVisible` | mem0-server/admission_gate.py:223-245 | The brand rule of the supersede door is the weakest that works: a winner's brand fits a loser's if and only if every scope that sees the loser sees the winner. |
| `Lifecycle.RebrandKeepsKinIff` | mem0-server/security_invariants.py:210-217 | A metadata merge keeps every link within its user and brand if and only if the merged record still fits each record it hides behind and each one hidden behind it. |
| `Lifecycle.RebrandHidesTheWinner` | mem0-server/security_invariants.py:210-217 | The merge is let through regardless: a permitted re-brand of a winner that takes it out of its loser's sight. |
| `Cascade.Walk` | mem0-server/app.py:4097-4133 | The walk ends; it collects records behind the root, each once, and all of them exactly when no page it needed was missing or cut short. |
| `Cascade.SmallFanInIsComplete` | mem0-server/app.py:4113-4128 | An answered page of a record with at most 100 direct predecessors misses none. |
| `Cascade.Memories.DeleteChain` | mem0-server/app.py:4139-4179 | Exactly the readable unprotected members go, also those whose deletion applies and loses its answer; exactly the others are reported. |
| `Cascade.Memories.Gate` | mem0-server/app.py:4022-4056 | The gate passes exactly with an answered tier read, a valid service credential and, for a protected root without a proven insight label, an accepted token, whose nonce it burns even if the request fails later. |
| `Cascade.GrantedIff` | mem0-server/app.py:4022-4056 | A delete is granted exactly with an answered tier read, no claimed label and, on a locked record, a mac that signs "delete" of it with a nonce unseen for 600 s. |
| `Cascade.Memories.Delete` | mem0-server/app.py:4022-4227 | Each outcome has its exact condition: refused by the gate, refused because the intent append failed, answered, or lost; a refused or unannounced delete changes nothing, a protected root needs its accepted token or a proven insight label, and a fully answered cascade removes exactly the root and the unprotected records behind it, in a forest all of them. |
| `Cascade.ForestHasNothingToSkip` | mem0-server/supersession.py:303-309 | In a forest nothing behind a record is protected. |
| `Server.Server.RunSupersede` | mem0-server/supersession.py:237-272 | The in-place transaction takes exactly the modelled steps, whatever call fails. |
| `Server.Server.RunUnsupersede` | mem0-server/supersession.py:275-300 | The in-place transaction takes exactly the modelled steps: precheck, intent line, delete the keys, stamp `updated_at`. |
| `Server.Server.UpdateTier` | mem0-server/app.py:2682-2725 | The in-place locked region takes exactly the modelled steps: promotion refusal, re-read of the tier, intent line, write. |
| `Server.Server.Merge` | mem0-server/app.py:2800-2810 | The in-place locked region is exactly the modelled one merge, for PATCH /metadata and for the NLI stamp (mem0-server/app.py:830-839). |
| `Server.Server.Update` | mem0-server/app.py:2375-2519 | The in-place locked region takes exactly the modelled steps: fail-closed read, rebuild, verify, ledger line. |
| `Server.Server.PostVerify` | mem0-server/app.py:2429-2480 | The retry loop of PUT step by step: check, restore, re-check, at most four rounds. |
| `PutVerify.PostVerify` | mem0-server/app.py:2425-2502 | Against any store: rounds until the first clean one, four at most; checks and write-backs are exactly those of the rounds made; with a tier among the expected keys it answers 200 exactly when the last completed check found every key or none completed. |
| `PutVerify.CleanIffShown` | mem0-server/app.py:2429-2480 | A round is clean exactly when its first read showed every expected key, or its write-back was accepted and the re-read showed them. |
| `PutVerify.WritesOnlyWhatIsMissing` | mem0-server/app.py:2429-2480 | Only keys a check missed are written back, with their own values, never an empty set. |
| `PutVerify.NoCheckIffNoAnswer` | mem0-server/app.py:2429-2480 | No check completes exactly when the first read of every round failed. |
| `PutVerify.GatedRecordsHaveTiers` | mem0-server/app.py:2425-2428 | Every record the gate saw has a tier among the expected keys, which are the carried ones. |
| `PutVerify.ContractNeedsNoRestore` | mem0-server/payload_carryover.py:54-64 | Under mem0's contract the first check already misses nothing. |
| `RunningSummary.SplitGivesSegments` | mem0-server/episodic.py:517-533 | No segment followed by a separator in a leftmost split ends in a space and a bar. |
| `RunningSummary.JoinOfSplit` | mem0-server/episodic.py:536-557 | Splitting and rejoining is the identity. |
| `RunningSummary.SplitOfJoin` | mem0-server/episodic.py:517-533 | Rejoined segments split back into themselves. |
| `RunningSummary.SplitOfAppend` | mem0-server/episodic.py:517-519 | How appending a text changes the segments: only a last one that ends in a space and a bar gives those to the separator. |
| `RunningSummary.AppendRunningSummary` | mem0-server/episodic.py:498-533 | The loop computes the specified summary and never exceeds the cap. |
| `RunningSummary.TrimmedSplits` | mem0-server/episodic.py:519-533 | A trim keeps the opening segment, one gap marker and the newest segments that fit, and splits back into them. |
| `RunningSummary.SummaryStaysShort` | mem0-server/episodic.py:613-635 | Over any checkpoints at most 800 characters, in segments of at most 300. |
| `RunningSummary.PreviewIsPrefix` | mem0-server/episodic.py:613-635 | What a typed prompt contributes is what it begins with, up to the number of characters; an untyped one contributes nothing. |
| `RunningSummary.NewestPreviewIsSuffix` | mem0-server/episodic.py:613-618 | The first 200 characters of the newest typed prompt, without the gap character, are what the summary ends with right after it. |
| `RunningSummary.OpeningBeginsFirstPrompt` | mem0-server/episodic.py:505-512 | However many checkpoints follow, the first segment is what the first prompt begins with, up to its first separator or 300 characters, if that is not empty. |
| `RunningSummary.NothingLostUnderCap` | mem0-server/episodic.py:498-512 | While all contributions fit under 800 characters the summary is all of them, in order. |
| `RunningSummary.TrimKeepsAllThatFits` | mem0-server/episodic.py:519-533 | A trim drops a segment only if the text with it would be longer than the cap. |
| `RunningSummary.OneGapMarker` | mem0-server/episodic.py:519-533 | Previews without the gap character leave at most one gap marker, never the first segment. |
| `RunningSummary.OpeningSegmentStaysIff` | mem0-server/episodic.py:505-512 | Once there are two segments the first never changes, exactly unless it is empty and only gap markers follow. |
| `RunningSummary.OpeningCanBeLost` | mem0-server/episodic.py:505-512 | Prompts that reach that case and lose the opening segment. |
| `RunningSummary.ScrubRunningSummary` | mem0-server/episodic.py:536-557 | The scrub loop drops the machine segments and dangling gap markers. |
| `RunningSummary.ScrubIsIdempotent` | mem0-server/episodic.py:536-557 | Scrubbing twice is scrubbing once, for any notion of machine text. |
| `RunningSummary.ScrubLeavesCleanText` | mem0-server/episodic.py:539-557 | Text comes back unchanged exactly when no segment is machine text and no marker dangles. |
| `RunningSummary.ScrubKeepsWhatWasTyped` | mem0-server/episodic.py:536-557 | The typed segments are the same before and after a scrub, in the same order. |
| `Episodes.EpisodeTable.constructor` | mem0-server/episodic.py:300-315 | From any table the startup dedupe leaves one unfinished row per session, the newest, with its summary. |
| `Episodes.DedupeTouchesDuplicatesOnly` | mem0-server/episodic.py:300-315 | A row changes exactly if a later unfinished row of its session follows, and then only its stage. |
| `Episodes.EpisodeTable.UpsertInProgress` | mem0-server/episodic.py:568-655 | A prompt appends one row or extends the summary of the session's one unfinished row, whose id it answers; every other row and every other session's summary is untouched; one unfinished row per session stays. |
| `Episodes.EpisodeTable.Finalize` | mem0-server/episodic.py:658-764 | Ending a session completes its unfinished row with the given summary, or writes a complete row (the newest one again just after an ending), answers that row's id, and leaves every other row as it was. |
| `Episodes.SummaryOfOwnPrompts` | mem0-server/episodic.py:580-592 | However sessions interleave, a session's summary is the one its own prompts since its last end make. |
| `GoalLinks.MigrationDedupes` | mem0-server/episodic.py:340-356 | From any table the migration leaves one row per link, the earliest, loses no link and keeps other rows. |
| `GoalLinks.MigrationIsIdempotent` | mem0-server/episodic.py:340-348 | On a clean table it deletes nothing. |
| `GoalLinks.LinkTable.InitSchema` | mem0-server/episodic.py:340-356 | The migration in place, with its count. |
| `GoalLinks.LinkTable.LinkEpisodeToGoal` | mem0-server/episodic.py:1120-1160 | Adds the link at most once and answers the id of its one row; an unknown type is refused. |
| `GoalLinks.LinkTable.RetargetGoalLinks` | mem0-server/episodic.py:1163-1177 | The row-by-row update-or-ignore then delete is the specified merge; moved + dropped is the source's link count. |
| `GoalLinks.MergeRenames` | mem0-server/episodic.py:1163-1177 | Merging two goals gives the target exactly the union of links and leaves the source none. |
| `GoalLinks.MergedRows` | mem0-server/episodic.py:1163-1177 | Rows not on the source stay as they are; what else is there is a source row with its own id, episode and type, now on the target. |
| `GoalLinks.MergeKeepsTable` | mem0-server/episodic.py:353-356 | The merged table satisfies the unique index. |
| `GoalLinks.MergeIsUnionIff` | mem0-server/episodic.py:1163-1177 | Only a merge of a goal with links into itself fails to give the union. |
| `Sorting.SortIsSorted` | mem0-server/fusion.py:73-77 | The stable descending sort gives the same elements, highest first. |
| `Sorting.SortIsStable` | mem0-server/fusion.py:73-77 | Ties keep their order. |
| `Fusion.RankPositive` | mem0-server/fusion.py:73-77 | Ids with a positive value, highest first, ties in pool order. |
| `Fusion.Fuser.ScoreAndRank` | mem0-server/fusion.py:128-141 | The ranking is made with the fixed defaults, whatever was configured. |
| `Fusion.Fuser.Rrf` | mem0-server/fusion.py:80-122 | The loops compute the specified ranking cut to top_k and leave one leg per pool id: its cosine above the threshold, its three ranks, the score the ranking used. |
| `Fusion.ScoreIsInUnit` | mem0-server/fusion.py:98-105 | Every score is in (0, 1] and the cap at 1 never cuts. |
| `Fusion.ScoreOfRanks` | mem0-server/fusion.py:98-105 | At any ranks each leg adds its weight, shrunk as k + 1 to k + rank, over the sum of the weights. |
| `Fusion.FirstPlacesAddUp` | mem0-server/fusion.py:98-105 | A candidate first on each leg that holds it scores those legs' share of the weights, whatever k is. |
| `Fusion.AheadRanksHigher` | mem0-server/fusion.py:91-122 | A candidate with the higher cosine that is not behind on the other legs stands strictly ahead in every cut. |
| `Fusion.OnlyRanksMatter` | mem0-server/fusion.py:91-122 | Rescalings that keep the passing ids, the positive ids and their order give identical ids and scores. |
| `Fusion.RankingIsThePool` | mem0-server/fusion.py:84-122 | The full result is the passing pool, best first. |
| `Fusion.FullScoreIffFirstEverywhere` | mem0-server/fusion.py:98-105 | With three positive weights a candidate scores 1.0 exactly when all three legs rank it first. |
| `Fusion.RanksAsConfiguredIff` | mem0-server/fusion.py:55-60 | The search ranks every input as the configured constants would if and only if they equal the defaults the module was loaded with. |
| `Fusion.ProbesTellWeightsApart` | mem0-server/fusion.py:80-122 | Two searches for two hits, without and with a keyword match, determine all three constants. |
| `Fusion.ConfiguredSpaceIsIgnored` | mem0-server/fusion.py:128-141 | One such search whose answer differs from the one under the older embedding space's constants (mem0-server/embedder_profile.py:87). |
| `Reranker.Client.Rerank` | mem0-server/reranker.py:129-204 | Skip, one cold retry within the 20 s budget, fallback to the given order; status, counters and the exact time allowed in each case. |
| `Reranker.RetryTakesWhatIsLeft` | mem0-server/reranker.py:155-169 | A retry is made after a read timeout alone, with exactly what is left of 20 s, if that is a second. |
| `Reranker.SkippedIff` | mem0-server/reranker.py:83-93 | Fewer than three results, or a head at the cut, skip the rerank; a higher cut skips less. |
| `Reranker.Reorder` | mem0-server/reranker.py:170-184 | The two loops compute the specified order. |
| `Reranker.CopiesOfEachResult` | mem0-server/reranker.py:170-184 | A result stands in the list as often as the answer names it, and once if it does not. |
| `Reranker.EachOnceIffDistinct` | mem0-server/reranker.py:170-184 | Each result appears exactly once precisely when no index in range is named twice. |
| `Reranker.ScoredFirstThenOldOrder` | mem0-server/reranker.py:170-184 | Scored results first, non-increasing; the rest behind, in their old order. |
| `Reranker.FailureMeansDenseOnly` | mem0-server/app.py:1731-1847 | When the reranker fails the search answers as if the keyword leg had not run. |
| `Reranker.DropIsFailClosed` | mem0-server/app.py:1834-1847 | Every visible dense hit survives; no unscored keyword-only hit does. |
| `Reranker.UnionHolds` | mem0-server/app.py:1745-1775 | A keyword hit joins exactly if no dense hit is that record, behind the dense ones. |
| `Reranker.NamedKeywordHitStays` | mem0-server/app.py:1818-1847 | A joined keyword hit that the answer names is in the result with a score the answer gave it, however confident or short the list. |
| `Admission.AdmitsExactly` | mem0-server/admission_gate.py:180-290 | The gate admits exactly what passes tier, hiding, brand, coherence, age and relevance, in no order; a missing score never rejects. |
| `Admission.ClassesAdmit` | mem0-server/admission_gate.py:428-466 | Exactly what each query class shows, by the stored keys: tiers, hiding, brand scope and coherence, for the operational class the 180 days and the relevance floor. |
| `Admission.SearchShowsExactly` | mem0-server/admission_gate.py:515-566 | A search lists exactly those of its results that its class shows. |
| `Admission.ReasonIsTrue` | mem0-server/admission_gate.py:180-290 | A rejection names a rule that the record really breaks, with the value it breaks it by. |
| `Admission.Gate.ResolveStampTiers` | mem0-server/admission_gate.py:121-148 | One lookup for what the 600 s cache lacks; a failed one leaves the cache and the live entries as they are. |
| `Admission.ResolvedTiersAreRecent` | mem0-server/admission_gate.py:121-148 | Over any run, every tier a search works with was true within the last 600 s; a target is unresolved exactly when this search's own lookup failed; failures are never cached. |
| `Admission.AnswersAreKept` | mem0-server/admission_gate.py:121-148 | What a lookup answered serves every search of the next 600 s, also one whose own lookup fails. |
| `Admission.CachedVerdictIsCurrent` | mem0-server/admission_gate.py:180-217 | While a target kept its tier for 600 s and its lookup works, the cached verdict is the uncached one. |
| `Admission.HiddenOnlyByRecentCanonical` | mem0-server/admission_gate.py:209-217 | A record is hidden as a contradiction only if its target was canonical within the last 600 s. |
| `Admission.Gate.CountRejection` | mem0-server/admission_gate.py:60-70 | The daily counters by family always add up to the daily total, across a day roll. |
| `Admission.Gate.ApplyAdmission` | mem0-server/admission_gate.py:515-566 | Admitted results keep their order; the counts by family sum to the number rejected, each family its own; the daily counters advance by exactly the rejections. |
| `Admission.StatsFamily` | mem0-server/admission_gate.py:586-590 | The key of the first table entry whose prefix the reason has, none exactly when there is no such entry. |
| `Admission.ReasonHasItsKey` | mem0-server/admission_gate.py:573-583 | Each reason text falls under its own family only. |
| `Judge.Judge.Run` | mem0-server/codex_shim_client.py:270-325 | Attempts go on up to the first that is not waited out; its answer, the ledger and the reported wait are those of that attempt; a held lock or a rate limit is the answer only once the budget is spent, a timeout only then or the third time. |
| `Judge.WaitedOutIff` | mem0-server/codex_shim_client.py:309-319 | Waited out are exactly held locks and rate limits while the budget lasts, and the first two timeouts; every other answer is final. |
| `Judge.PauseBetween` | mem0-server/codex_shim_client.py:320-325 | The pause is the interval, or what is left of the budget if that is less, never under a tenth of a second. |
| `Judge.RunIsBounded` | mem0-server/codex_shim_client.py:270-325 | The last attempt starts before budget + 0.1 s plus its sleep's overrun; at most three timeouts and three ledger rows; a last answer still busy means a spent budget or a third timeout. |
| `Spend.EstimateCostUsd` | mem0-server/anthropic_judge.py:136-144 | The table walk computes the specified cost. |
| `Spend.PricePerMillion` | mem0-server/anthropic_judge.py:136-144 | A row's two numbers are dollars per million tokens read and written; the small model charges five times both for a long prompt. |
| `Spend.LongestPrefixWins` | mem0-server/anthropic_judge.py:56-67 | The row used is the most specific one that matches. |
| `Spend.UnknownIsHighest` | mem0-server/anthropic_judge.py:56-68 | An unknown model costs at least as much as any other, for any token counts. |
| `Spend.Ledger.MonthSpend` | mem0-server/anthropic_judge.py:183-198 | The month's sum; an unreadable ledger reads as 0. |
| `Spend.Ledger.JudgeOnce` | mem0-server/anthropic_judge.py:291-342 | At most two calls, none without key or budget; the outcome and the recorded row are the specified ones. |
| `Spend.ReplyIsBilled` | mem0-server/anthropic_judge.py:330-342 | A reply is billed once, at the model that served it for its tokens, whatever the verdict. |
| `Spend.TimeoutIsBilled` | mem0-server/anthropic_judge.py:319-329 | A request given up on is billed as its prompt at a token per three characters and not repeated. |
| `Spend.OtherErrors` | mem0-server/anthropic_judge.py:319-330 | Other errors cost nothing; the transient ones get one second attempt while more than ten seconds are left. |
| `Spend.NotCalled` | mem0-server/anthropic_judge.py:291-318 | Without key, time or SDK, and from the cap on, nothing is called and nothing recorded. |
| `Spend.OneRowPerCall` | mem0-server/anthropic_judge.py:291-342 | A call writes at most one row, and none when it ends busy other than by a timeout. |
| `Spend.SpendStaysUnderCap` | mem0-server/anthropic_judge.py:214-225 | Over any sequential run with a positive cap and a working ledger each month stays below the cap plus its last row. |

## Left out

- Adds and deletes between the steps of a request: part of the forest results, not of the serial-order, ledger
  and token results, which are about the six handlers. A cascade is one event there, its steps are `Cascade`.
- `Authority.ProtectedWritesAreSigned`: speaks of the tier the gate saw, because PUT and PATCH /metadata read
  it before their lock on purpose; the text of a record promoted in that window is not covered.
- `Lifecycle.HistoryKeepsChainsVisible`: the shared-brand list is fixed over the history.
- `Spend.SpendStaysUnderCap`: costs are exact; the ledger rounds each row to six decimals.
- `Judge.Judge.Run`: elapsed time is exact; `lock_waited_s` is rounded to 0.1 s in the response.
- `Fusion.Fuser.Rrf`: scores are reals, not floats; payloads and the explain details are not carried, and the
  mode that runs mem0's own formula is not modelled.
- `Audit.LedgerRebuildsMarks`: rebuilds the effective tier; a missing tier and canonical are one value there.
- HMAC (RFC 2104) is an uninterpreted relation over the signed tuple; key custody is not part of the model.
- Ids are taken as canonical UUIDs (RFC 9562, section 4), brands and labels as already stripped and
  lower-cased; the other spellings of an id and the bad-id refusals are not modelled.
- Text checks without a bearing on the state (caps on text, the imperative canary, an empty reason) are
  arbitrary refusals of a request.
- mem0's own update and search code: only its update contract and a fixed candidate pool are used; an add with
  `infer=true`, where mem0 may change other records, is not modelled.
- Deduplication of adds by text hash, media memories, embeddings and vectors.
- File and database errors of the nonce file and the SQLite tables; a crash between two steps, except for the
  forest results.
- Reason texts, HTTP bodies, log lines and response details; delete's completion lines and its list of
  orphaned supersessions.
- The hand-written supersession markers, redaction and the machine-turn test: regular expressions, here any
  predicate.
- Freshness weighting, full-text search, retrieval logging, health reports, hooks and the command line tools.
- `diagnose_memory`, which documents its own differences from a search.
