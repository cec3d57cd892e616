# Riverside PUGs in Dafny

A model of the parts of the Riverside PUG site where state is easiest to get wrong, and proofs of
what they promise. Tables are maps from ids to records, reals stand for floating-point numbers and
an injective hash for sha256. Code that changes rows or fields step by step is a class or a method
with loops, proved equal to a function of the old state; the laws are lemmas about those functions
and about every run of them. Code that awaits is cut at its awaits: each stretch is one step, and
the laws are about every interleaving of steps.

1. **Balance patches** (`Inventories`, `PointerForest`, `BalanceTables`, `BalanceFold`,
   `BalancePatches`, `RefingerprintLaws`, `RefingerprintAgain`, `RefingerprintCases`, `KeeperLaws`,
   `IgnoreCases`, `Refingerprint`, `Sightings`, `SightingLaws`, `BalanceTriage`, `BalanceMerge`,
   `BalancePublic`, `ReleaseBalance`, `TriageLaws`, `HistoricalPatches`, `BalanceRuns`): the fold
   forest and its writers. The invariant `BalanceTables.Consistent` holds over every run; who keeps
   a shared fingerprint, whom a new config joins and when a decision goes through are said of the
   tables themselves.
2. **The rollout writer** (`RolloutWriter`, `BalanceWriter`, `RolloutWriterLaws`,
   `RolloutProgress`, `RolloutEffects`): a row that says a box has the file tells the truth, whatever
   times out and lands late; in every fair run every sync is answered; and a box that can be written
   is, and its row says so.
3. **Related accounts and holds** (`AltClusters`, `AltHolds`): union-find computes connected
   components; holds own their bans, also across merges.
4. **Arithmetic** (`AimRules`, `TeamBalance`, `Sorting`, `BallotPoints`, `BallotDecay`,
   `BallotDraw`, `BallotLaws`): the binomial tail, the balancer's enumeration, the ballot and its
   weighted draw.
5. **Dumps and aliases** (`DumpText`, `DumpParse`, `DumpLaws`, `DumpAccepts`, `Aliases`,
   `CanonicalDump`): the authentic block is found, exactly the good answers are accepted and printed
   dumps read back; rewriting to one account a person conserves every total.
6. **Abandons and demos** (`Abandon`, `AbandonLaws`, `AbandonCauses`, `Demos`, `DemoOffload`,
   `DemoLaws`, `DemoKeys`, `DemoMoves`): one outcome and one ban for an abandon, and only on the
   server's own word; exactly which turns of the demo sweep can lose a recording.
7. **Knobs** (`BalanceKnobs`, `KnobRestore`, `SafeRange`): exactly the values in the safe range are
   accepted, what the panel writes it can read back, and a restore that is previewed reaches the
   fingerprint of its patch.

Some promises of the source hold only under a condition. Each has its exact condition and an input
outside it:

- Ignoring plugins makes two configs alike exactly when both were read under one watch list
  (`Inventories.IgnoringMakesAlike`, `Inventories.IgnoringMissesWatchLists`).
- A refingerprint fails on the unique key exactly when a row left as it is holds a planned hash
  (`RefingerprintLaws.ThrowsExactlyOnClash`, `RefingerprintCases.UnreadableRowClashes`), and a merged
  patch counts for its keeper exactly when the keeper was not folded itself
  (`RefingerprintLaws.MergedCountForKeeper`, `RefingerprintCases.MergedPastItsKeeper`).
- The comment above refingerprintPatches says that running it again changes nothing. That holds
  exactly when the rows it found blocked by a fold loop are still blocked afterwards: a merge in
  another group can free one, and the next run merges it
  (`RefingerprintAgain.SecondRunIsIdleIffStillBlocked`, `RefingerprintCases.SecondRunIsNotIdle`).
- An ignore is not to turn the balance patch it was aimed at into the pending one. It does not where
  no folded patch stands to keep the target's hash; one that was merged into the pending patch itself
  can (`KeeperLaws.IgnoreKeepsItsTarget`, `IgnoreCases.TargetCountsForTheTriaged`).
- The header of src/demoOffload.ts says no step loses a match's only recording. A row's turn can
  lose one exactly when, at its start, the key it uploads to holds the only copy of another
  recording, or the row's key leads to an object of the file's size that is not its copy
  (`DemoLaws.TurnCanLoseIffEndangers`). It comes to that because the row is read anew at
  its turn while the key is built from the name that was selected, and earlier rows of the match are
  awaited in between: in `DemoLaws.OnlyRecordingIsLost` a larger file takes the second row over while
  the first one uploads, and is then uploaded under the smaller one's key; the smaller one, grown, is
  later uploaded over it. While each turn finds its row's own file nothing is lost
  (`DemoLaws.NoDemoIsLost`).
- src/demos.ts says a row's key belongs to the file it names. The sweep writes the key by match and
  ordinal, so that holds exactly when the row still names the uploaded file
  (`DemoKeys.ServesIffStillNames`, `DemoKeys.TakenOverRowServesAnother`).
- A patch announced by an apply can be restored exactly when the values its draft kept stood as the
  panel writes them, which a step made coarser breaks (`KnobRestore.AnnouncedCanBeRestored`,
  `KnobRestore.EveryApplyCanBeRestored`, `BalanceKnobs.CoarserStepRewrites`).

Assumptions, each a hypothesis of the theorem that needs it or built into its steps: only the writer
writes a box's file, a put's effect is final when it settles, the boot verify runs with nothing in
flight; in a fair run a turn that can go on all the while does (every await of it is bounded) and
every transport call settles; one demo sweep runs at a time, a file untouched for DEMO_QUIET_MS is
finished, a file's name tells its match and ordinal; a match has one token.

## Model

| member | source | states |
|---|---|---|
| BalanceFold.ChainOf | src/balanceFold.ts:19-27 | The chain of folds is found exactly when it ends, and is then the whole walk to its end; otherwise the fold loop is reported |
| BalanceFold.ResolvePatch | src/balanceFold.ts:30-32 | A patch resolves to the end of its chain |
| BalanceFold.RetagRounds | src/balanceFold.ts:37-53 | Every round and context whose tag is stale is retagged, nothing else changes, and the number moved is returned |
| BalanceFold.FoldInto | src/balanceFold.ts:58-69 | Refuses itself and a loop, else folds into the end of the target's chain, hides a publication and retags |
| BalanceFold.FoldReroutes | src/balanceFold.ts:58-69 | A fold keeps the graph acyclic and re-resolves exactly the patches whose chain passes through it, all to the target's end |
| BalanceFold.FoldKeepsConsistent | src/balanceFold.ts:58-69 | A fold keeps acyclicity, derived tags, distinct fingerprints, references and publication |
| BalanceFold.UnfoldPatch | src/balanceFold.ts:76-87 | Children go on to the old end, the patch stands alone, its hidden publication returns, rounds are retagged |
| BalanceFold.UnfoldMovesOne | src/balanceFold.ts:71-87 | An unfold changes the resolution of that patch alone; its former children keep their end |
| BalanceFold.UnfoldKeepsConsistent | src/balanceFold.ts:76-87 | An unfold keeps the same invariants |
| BalanceFold.UnfoldUndoesFold | src/balanceFold.ts:58-87 | Folding and unfolding returns the patch and its publication; only patches that came in through it stay with the target |
| BalanceFold.RevisitNeverEnds | src/balanceFold.ts:19-27 | A chain that comes back to a patch it passed never ends: the loop check is exact |
| PointerForest.Link | src/balanceFold.ts:58-69 | Linking a root under a node outside its tree keeps every chain ending and moves exactly that tree |
| PointerForest.Unlink | src/balanceFold.ts:76-87 | Taking a node out and handing its children to its end keeps every other end |
| PointerForest.Compress | src/altHolds.ts:348-353 | Pointing a node straight at its end changes no end |
| BalanceTables.EffectiveStored | src/balanceFold.ts:30-32 | What a stored patch resolves to is stored |
| Inventories.FingerprintsAgree | src/balancePatches.ts:25-29 | Two configs share a fingerprint exactly when they have the same keys and differ at most in builds of versionless plugins |
| Inventories.IgnoringMakesAlike | src/balanceTriage.ts:194-228 | Ignoring the differing plugins makes two configs hash alike exactly when no watched key is on one side only |
| RefingerprintLaws.ThrowsExactlyOnClash | src/balancePatches.ts:310-315 | The rewrite violates the unique key exactly when a planned hash is held by a row left as it is |
| RefingerprintLaws.ReadableNeverClashes | src/balancePatches.ts:261-315 | With readable inputs and no fold-loop block the new fingerprints are distinct |
| RefingerprintLaws.OneHolderForEachHash | src/balancePatches.ts:248-353 | Afterwards exactly one patch holds each recomputed hash |
| RefingerprintLaws.MergedCountForKeeper | src/balancePatches.ts:316-323 | A merged patch resolves to its keeper exactly when the keeper was not already folded |
| RefingerprintLaws.RefingerprintKeepsConsistent | src/balancePatches.ts:248-353 | The whole refingerprint, or its failure, keeps every invariant of the tables |
| Refingerprint.SetFingerprint | src/balancePatches.ts:313-315 | One UPDATE of a unique column: fails exactly when another row holds the value, and distinctness holds after it either way |
| Refingerprint.ClearFingerprints | src/balancePatches.ts:311-314 | The first loop clears every changed fingerprint, distinct at each write |
| Refingerprint.WriteFingerprints | src/balancePatches.ts:310-315 | Clear, then set: succeeds exactly when the final fingerprints are distinct, else nothing is changed |
| Refingerprint.GroupRows | src/balancePatches.ts:261-271 | Rows are grouped by their new hash, keys in order of first sight |
| Refingerprint.PlanGroups | src/balancePatches.ts:272-309 | The plan of every group: keeper, cleared members, merges |
| Refingerprint.RefingerprintPatches | src/balancePatches.ts:248-353 | The whole call refines the specified result, with its counts and merges |
| Sightings.RecordBalanceSighting | src/balancePatches.ts:101-221 | A sighting finds or adds its patch, tags the round with it and with what it resolves to, and reports the change |
| Sightings.SightingKeepsConsistent | src/balancePatches.ts:101-221 | A sighting keeps every invariant |
| Sightings.NewPatchMovesNoOther | src/balancePatches.ts:126-172 | A new patch changes the resolution of no other |
| Sightings.WatchOnlyNeedsNoTriage | src/balancePatches.ts:126-172 | A new patch that only adds watched keys is folded into what the box ran; any other waits for triage on its own |
| Sightings.SameConfigSamePatch | src/balancePatches.ts:101-172 | Sighting the same config again changes nothing |
| BalanceTriage.CheckFold | src/balanceTriage.ts:170-183 | The target is the end of the chosen patch's chain and may not be the patch itself, pending or missing |
| BalanceTriage.TriageFold | src/balanceTriage.ts:185-192 | A triage fold checks, folds and retags |
| BalanceTriage.TriageFoldReroutes | src/balanceTriage.ts:170-192 | A triage fold re-resolves exactly the patches that pass through it to the target, which itself is unchanged |
| BalanceTriage.TriageIgnore | src/balanceTriage.ts:194-228 | Ignore: lists the plugins, refingerprints, joins the patch to its base; all or nothing |
| BalanceTriage.IgnoreSettles | src/balanceTriage.ts:194-228 | After an ignore the patch counts for its base, or for a patch already decided |
| BalanceTriage.IgnoreKeepsConsistent | src/balanceTriage.ts:194-228 | An ignore keeps every invariant, whether it succeeds or rolls back |
| BalanceTriage.StandInId | src/balanceTriage.ts:121-133 | The newest earlier patch with inputs that resolves to the base stands in for it |
| BalanceTriage.TriageUnfold | src/balanceTriage.ts:230-245 | Unfolds a folded patch, but not one a refingerprint merged nor the active rollout's |
| BalanceTriage.TriageBalance | src/balanceTriage.ts:157-168 | A pending patch becomes a balance patch with its name |
| BalanceMerge.MergeBalancePatches | src/balanceMerge.ts:21-59 | Checks, folds every dropped patch into the kept one, and reports the rounds moved; a dry run changes nothing |
| BalanceMerge.DropsCountForKept | src/balanceMerge.ts:21-59 | Every dropped patch resolves to the kept one; every other patch to the kept one or where it did |
| BalancePublic.PublishPatch | src/balancePublic.ts:65-90 | Publishing: only a balance patch with counted rounds; a folded one may only be unpublished |
| BalancePublic.PublishKeepsConsistent | src/balancePublic.ts:65-90 | A published patch is a balance patch |
| BalanceRuns.EmptyIsConsistent | src/balanceFold.ts:19-87 | An empty database satisfies them |
| BalanceRuns.FoldHides | src/balanceFold.ts:58-69 | A fold takes a published patch off the page and puts its time aside |
| BalanceRuns.HiddenTimeSurvives | src/balanceFold.ts:58-87 | The time put aside survives any run without an unfold or unpublish of that patch |
| BalanceRuns.UnfoldBringsBack | src/balanceFold.ts:76-87 | An unfold publishes it again at that very time, unless it was unpublished meanwhile |
| BalanceRuns.UnfoldReturnsRounds | src/balanceFold.ts:71-87 | After any run an unfold gives the patch its own rounds back and moves no other |
| BalanceWriter.BalanceRolloutWriter.TakeHold | src/balanceWriter.ts:84-89 | A hold is taken exactly on an idle, enabled box that nobody leases |
| BalanceWriter.BalanceRolloutWriter.EndHold | src/balanceWriter.ts:95-103 | A hold ends by idling the box, unless another side owns it or a match took it |
| BalanceWriter.BalanceRolloutWriter.StartForRelease | src/balanceWriter.ts:177-205 | The release turn writes an offline box in time, an idle box under a hold, and leaves any other |
| BalanceWriter.BalanceRolloutWriter.NextBox | src/balanceWriter.ts:224-247 | A pass skips boxes that need no write, have one in flight or are not idle right now |
| BalanceWriter.BalanceRolloutWriter.OpSettled | src/balanceWriter.ts:292-296 | When it settles it is no longer tracked and its hold ends |
| BalanceWriter.BalanceRolloutWriter.AfterWrite | src/balanceWriter.ts:299-310 | A row is marked written only on a matching read-back of the rollout that is still active |
| BalanceWriter.BalanceRolloutWriter.AfterTimeout | src/balanceWriter.ts:257-264 | A timed-out write fails the row and leaves the call tracked |
| BalanceWriter.BalanceRolloutWriter.VerifyBox | src/balanceWriter.ts:333-356 | The boot check marks a matching box written and a differing one pending |
| RolloutWriterLaws.RunsStaySafe | src/balanceWriter.ts:84-356 | The writer's bookkeeping stays sound over every interleaving |
| RolloutWriterLaws.OneWriteAtATime | src/balanceWriter.ts:224-310 | No box ever has two transport writes in flight, even after a timeout |
| RolloutWriterLaws.HeldUntilSettled | src/balanceWriter.ts:118-129 | A held write keeps its hold until it settles |
| RolloutWriterLaws.HoldEndsByItsOwner | src/balanceWriter.ts:84-129 | A hold ends only when its own call settles or never starts |
| RolloutWriterLaws.EndedForGood | src/balanceWriter.ts:84-129 | An ended hold never comes back |
| RolloutWriterLaws.AllHoldsEndAtRest | src/balanceWriter.ts:84-129 | With nothing running every hold taken has ended |
| RolloutWriterLaws.NeverIdlesEarly | src/balanceWriter.ts:95-103 | The writer idles only a box it holds, with no match and no write in flight |
| RolloutWriterLaws.RunsKeepTruth | src/balanceWriter.ts:224-310 | Over every interleaving of applies, timeouts, late landings and retries a truthful row stays truthful: written or confirmed means the file is the rollout's |
| RolloutWriterLaws.ApplyIsTruthful | src/balanceRollouts.ts:31-176 | After an apply the rows are truthful in every run from there |
| RolloutWriterLaws.BootCheckIsTruthful | src/balanceWriter.ts:333-356 | A box the boot check read is truthful in every run from there |
| RolloutWriterLaws.MarkIsTruthful | src/balanceWriter.ts:299-310 | A row marked written by a write is the active rollout's and truthful |
| AltClusters.Find | src/altHolds.ts:348-353 | The lookup ends at the root and compresses its path without changing any root |
| AltClusters.Union | src/altHolds.ts:354-359 | One edge joins exactly the two components it touches |
| AltClusters.JoinIsConnected | src/altHolds.ts:354-359 | With one more edge two accounts are linked exactly when they were, or the edge joins their components |
| AltClusters.CompressKeeps | src/altHolds.ts:348-353 | Path compression changes no root |
| AltClusters.UnionJoins | src/altHolds.ts:354-359 | Linking two roots merges their trees and no others |
| AltClusters.AltClusters | src/altHolds.ts:345-371 | The clusters are whole components of the edges, each listed once |
| AltClusters.ShareAClusterIffLinked | src/altHolds.ts:345-371 | Two accounts share a cluster exactly when a chain of edges links them |
| AltHolds.HoldDesk.Place | src/altHolds.ts:81-148 | A hold is refused for a cleared pair, an open hold, no account or staff, else placed with a ban of its own |
| AltHolds.HoldDesk.CloseHold | src/altHolds.ts:173-182 | Closing ends the hold and its ban, and says whether the account is free |
| AltHolds.HoldDesk.CloseHoldsForMerge | src/altHolds.ts:221-229 | A merge closes the open holds it answers, and no others |
| AltHolds.OnlyItsOwnBanEnds | src/altHolds.ts:173-182 | Ending a hold lifts its own ban alone; the account stays banned exactly when another ban is active |
| AimRules.BinomialTail | src/aimRules.ts:104-118 | The running-coefficient loop is the chance of at least k successes in n trials; the cap never binds |
| AimRules.TermsAreTheTail | src/aimRules.ts:104-118 | The sum of C(n,i) p^i (1-p)^(n-i) for i >= k is that chance |
| AimRules.NextCoefficient | src/aimRules.ts:114-115 | i C(n,i) = (n-i+1) C(n,i-1): the coefficient step |
| AimRules.TailIsAChance | src/aimRules.ts:104-118 | The tail is in [0,1] and does not grow with k |
| AimRules.FewerWantedIsLikelier | src/aimRules.ts:104-118 | The tail is non-increasing in k |
| AimRules.HigherRateIsLikelier | src/aimRules.ts:104-118 | The tail is non-decreasing in p |
| AimRules.HsShare | src/aimRules.ts:151-166 | A finding for exactly the groups that are on, have ten kills and a rate, and a tail under 1e-3 |
| AimRules.HitSurvives | src/aimRules.ts:151-166 | A hit survives more headshots and a lower pool rate |
| TeamBalance.Picker.Pick | src/balance.ts:16-24 | The recursion over the shared accumulator appends every completion of it and leaves it as it was |
| TeamBalance.Combos | src/balance.ts:16-24 | Lists exactly the increasing k-subsets of 1..n-1, ascending |
| TeamBalance.PicksAreAll | src/balance.ts:16-24 | A choice is listed exactly when it is an increasing k-subset |
| TeamBalance.PicksAscend | src/balance.ts:16-24 | In dictionary order, hence each once |
| TeamBalance.ValidSplits | src/balance.ts:39-64 | An error exactly for sizes other than 4, 6 and 8; else the splits of the listed sides in order |
| TeamBalance.AllSidesAreListedOnce | src/balance.ts:39-64 | Every half with player 0 that keeps all duos together is listed exactly once |
| TeamBalance.TeamsArePartition | src/balance.ts:53-61 | Both teams have half the players and every player is on exactly one |
| TeamBalance.Nearest | src/balance.ts:66-74 | The first split nearest to even |
| TeamBalance.BalanceTeams | src/balance.ts:66-76 | The first split nearest to even of all that keep the groups; throws exactly when there is none |
| BallotPoints.RankPoints | src/ballot.ts:117-133 | Every slug gets the mean of the rank points of the places its tie block takes |
| BallotPoints.PointsIgnoreOrder | src/ballot.ts:117-133 | The points do not depend on the order of the slugs |
| BallotPoints.LongerUnplayedNeverGetsFewer | src/ballot.ts:114-133 | Longer unplayed never gets fewer points, and equal recency gets equal points |
| BallotPoints.PointsHandedOut | src/ballot.ts:117-133 | The points handed out are exactly those of the first min(n,3) places: 0, 4, 7 or 9 |
| BallotPoints.BlockCounts | src/ballot.ts:125-131 | A tie block of the sorted list stands at the places counted from the ages |
| BallotDecay.IgnoredKeep | src/ballot.ts:138-148 | The share kept is the product over the ballots looked at, above 1/4 and at most 1 |
| BallotDecay.KeepIsBounded | src/ballot.ts:138-148 | It stays above 1/4 however far back ballots count |
| BallotDecay.WholeIffNeverIgnored | src/ballot.ts:138-148 | It is 1 exactly when none of them ignored the campaign |
| BallotDecay.NextBumps | src/ballot.ts:219-232 | The two loops compute the decayed and renewed bumps |
| BallotDecay.BumpsStayBounded | src/ballot.ts:219-232 | Over every run of tallies each bump is in [0.01, 2) |
| BallotDecay.WinnerHoldsNone | src/ballot.ts:219-232 | The winner holds none |
| BallotDecay.GoneWithinEight | src/ballot.ts:219-232 | A bump not renewed is gone within eight tallies |
| BallotDecay.SevenAreNotEnough | src/ballot.ts:219-232 | Seven are not always enough |
| BallotDecay.BallotTables.FinishBallot | src/ballot.ts:299-312 | A waiting ballot is tallied and the bumps move on; anything else changes nothing |
| BallotDecay.BumpsOfCounted | src/ballot.ts:299-312 | The bumps are those of the tallies that counted, in order |
| BallotDecay.EachBallotCountsOnce | src/ballot.ts:299-312 | A ballot counts once at most, by the first call for it |
| BallotDraw.WeightedPick | src/ballot.ts:151-161 | Draws the option whose stretch of [0,total) the roll falls into; an even pick when nothing weighs |
| BallotDraw.PickIsUnique | src/ballot.ts:151-161 | The stretches do not overlap |
| BallotDraw.WeightlessIsNotDrawn | src/ballot.ts:151-161 | An option of no weight is drawn only when none has any |
| BallotDraw.RecentOnlyAsFallback | src/ballot.ts:182-186 | A recently played campaign is drawn only when its whole slot was |
| BallotDraw.NoneListedTwice | src/ballot.ts:177-215 | No campaign stands on a ballot twice when each has one category |
| DumpText.ReadFields | src/dumpParse.ts:72-79 | Fields split at the first =, nameless ones skipped, the last of a repeated key wins |
| DumpText.OneMoreField | src/dumpParse.ts:72-79 | A printed field reads back as its key and value |
| DumpText.IntTextReadsBack | src/dumpParse.ts:81-84 | A printed whole number reads back |
| DumpParse.FindStart | src/dumpParse.ts:112-128 | The last header with our nonce; the first header when none has any; else none |
| DumpParse.ReadBlock | src/dumpParse.ts:141-196 | The lines after the header are read up to END or the first bad one |
| DumpParse.ParseDump | src/dumpParse.ts:106-200 | The loops compute the specified parse |
| DumpLaws.AnswerIsOurLastBlock | src/dumpParse.ts:112-200 | Any accepted nonce answer is the last block with our nonce, opened and closed with that nonce and one state, its result that of the first END line |
| DumpLaws.ForeignNonceIsRefused | src/dumpParse.ts:118-128 | An answer with only other nonces is refused; one with none is read as an older plugin's and claims no state |
| DumpLaws.ForfeitNamesTheLoser | src/dumpParse.ts:186-193 | A reported forfeit names the losing side, with a reason exactly then |
| DumpLaws.NoAbandonerTwice | src/dumpParse.ts:176-178 | No abandoner is listed twice |
| DumpLaws.PrintedDumpReadsBack | src/dumpParse.ts:106-200 | A printed block with our nonce parses back to itself in any noise, after anything, before anything without our nonce in a header |
| DumpLaws.StatReadsBack | src/dumpParse.ts:155-162 | A printed STAT line reads back |
| DumpLaws.SkillReadsBack | src/dumpParse.ts:163-175 | A printed SKILL line reads back |
| DumpLaws.EndReadsBack | src/dumpParse.ts:179-194 | A printed END line reads back |
| Aliases.PlayerAliases.AddAlias | src/aliases.ts:37-53 | The alias is added or re-pointed, or refused with the table unchanged |
| Aliases.PlayerAliases.MergeInto | src/mergePlayers.ts:545-552 | A merge re-points the losing account's aliases and adds its own, or changes nothing |
| Aliases.RefusedIffSecondHop | src/aliases.ts:37-53 | An alias is refused exactly when it would make a second hop |
| Aliases.MergeRefusedIffIntoIsAlias | src/mergePlayers.ts:545-552 | A merge is refused exactly when the survivor is an alias or the merged account; else everyone of the loser resolves to the survivor |
| Aliases.AliasesStayOneHop | src/aliases.ts:37-65 | Over every run aliases stay one hop and resolving is idempotent |
| Aliases.Canonicalise | src/aliases.ts:107-121 | Exactly the id fields of the kind are rewritten |
| Aliases.NoAliasPastTheDoor | src/aliases.ts:107-121 | No alias is left in an id field, and a second rewrite changes nothing |
| CanonicalDump.CanonicaliseDump | src/aliases.ts:134-162 | The loops compute the specified rewrite |
| CanonicalDump.CountersAreConserved | src/aliases.ts:134-150 | One STAT line a person with the sum of every counter of theirs |
| CanonicalDump.FirstTeamEarliestMap | src/aliases.ts:134-150 | The first team seen and the earliest joined map are kept |
| CanonicalDump.SkillsAreConserved | src/aliases.ts:151-160 | One SKILL line a person; a stat is there exactly when measured, and is the sum |
| CanonicalDump.AbandonersAreKept | src/aliases.ts:160-161 | Each abandoner's person is named once |
| CanonicalDump.CanonicalTwice | src/aliases.ts:134-162 | Canonicalising twice is canonicalising once |
| Abandon.AbandonDesk.RecordAbandons | src/abandon.ts:129-150 | A row and a ban for each rostered player not yet on record |
| Abandon.AbandonDesk.HandleAbandon | src/abandon.ts:188-222 | Up to the first await: ignored, already decided, or waiting for the confirm |
| Abandon.AbandonDesk.AfterConfirm | src/abandon.ts:223-258 | The confirm records everyone named; an undecided match is aborted, a decided one asked to end |
| Abandon.AbandonDesk.AfterEndDecided | src/abandon.ts:287-316 | A refusal aborts a match still open and clears the outcome; else nothing more is written |
| Abandon.AbandonDesk.CompleteMatch | src/matchResult.ts:35-103 | A result completes an open match and adds the dump's abandoners to a decided one |
| AbandonLaws.AbandonsAreSound | src/abandon.ts:129-316 | Over every interleaving: one ban for each row and none without; one outcome a match; a match aborted for abandon has only undecided rows and was wrapped up once |
| AbandonLaws.RunKeeps | src/abandon.ts:129-316 | Every step keeps those invariants |
| AbandonLaws.OverStaysOver | src/abandon.ts:188-316 | A completed match is never turned into an aborted one, nor the reverse |
| AbandonLaws.RecordAdds | src/abandon.ts:129-150 | Only rows of the match for rostered players named are added; none changes |
| AbandonLaws.RecordTwiceIsOnce | src/abandon.ts:129-150 | A repeat is a no-op |
| AbandonLaws.NextRung | src/abandon.ts:25-39 | Bans are 1, 3, then 7 days by the counted bans of 30 days |
| Demos.DemoRows.RecordMatchDemos | src/demos.ts:84-123 | The largest file of each ordinal is upserted; another file replaces a row only when larger, without its key |
| Demos.RecordingKeepsKeys | src/demos.ts:108-118 | A key never passes to another file by recording |
| Demos.BestIsLargest | src/demos.ts:99-107 | Each ordinal's file is the largest found |
| Demos.DemoRows.PruneDemos | src/demoPrune.ts:43-71 | Only rows without a key go with a pruned file |
| DemoOffload.Sweep.AfterHead | src/demoOffload.ts:100-150 | Nothing is recorded or removed unless the object has the file's size |
| KnobRestore.PredictInventory | src/balanceControl.ts:54-58 | The prediction is the base without ignored plugins, with every knob at its value |
| KnobRestore.NotBlockingIffPredictionHolds | src/balanceControl.ts:87-107 | A server does not block exactly when it would report the predicted fingerprint whatever values are written |
| KnobRestore.ValidateDraft | src/balanceControl.ts:109-135 | The draft over the current values, free of errors exactly when every value can be written, every name is a knob and pairs hold |
| KnobRestore.PreviewKnobs | src/balanceControl.ts:181-203 | A fingerprint exactly when there is a base, no error and no missing knob |
| KnobRestore.RestoreValues | src/balanceControl.ts:205-227 | The recorded values, refused exactly when one of them cannot be written back as it is |
| KnobRestore.RestoreIsAccepted | src/balanceControl.ts:109-227 | The preview of a restore is free of errors exactly when kept values can be written and pairs hold |
| BalanceWriter.BalanceRolloutWriter.StartWriteHeld | src/balanceWriter.ts:118-123 | An unreachable box fails its row; a busy one is left; else it is held and its players counted |
| BalanceWriter.BalanceRolloutWriter.AfterCount | src/balanceWriter.ts:106-129 | Players on the box end the hold; an empty box is written |
| BalanceWriter.BalanceRolloutWriter.CannotStart | src/balanceWriter.ts:268-278 | A write that cannot start ends its hold and fails the row |
| BalanceWriter.BalanceRolloutWriter.StartPass | src/balanceWriter.ts:224-227 | A pass gives every enabled server a row and walks them |
| BalanceWriter.BalanceRolloutWriter.StartNextTask | src/balanceWriter.ts:133-152 | The head of the chain starts; a sweep that starts can no longer be joined |
| BalanceWriter.BalanceRolloutWriter.MarkFailed | src/balanceWriter.ts:316-321 | Only the active rollout's row is failed |
| BalanceWriter.BalanceRolloutWriter.ApplyKnobs | src/balanceRollouts.ts:89-93 | An apply supersedes the rollout and opens pending rows |
| AltHolds.HoldDesk.LiftAltHold | src/altHolds.ts:186-193 | Lifting clears an open hold and nothing else |
| AltHolds.HoldDesk.BanFromHold | src/altHolds.ts:196-212 | An open hold becomes an ordinary ban |
| Abandon.AbandonDesk.FindDecided | src/abandon.ts:209-214 | A side some row was decided for, or none |
| AimRules.SumTerms | src/aimRules.ts:110-116 | The loop adds exactly the terms from k to n |
| BallotDraw.ScoreSlot | src/ballot.ts:187-200 | Each campaign's score is the lobby's average of kept points, plus its bump |
| BallotDraw.AddStickies | src/ballot.ts:207-213 | Stickies not yet listed and not recent follow the draws |
| Refingerprint.PlanGroup | src/balancePatches.ts:272-309 | One group's plan: who keeps the hash, who is blocked, who merges |
| Refingerprint.FoldMerges | src/balancePatches.ts:316-323 | Every merged patch is folded into its keeper unless the keeper is folded into it |
| Refingerprint.FoldLeftovers | src/balancePatches.ts:328-341 | Every leftover is folded into the holder of its fingerprint |
| CanonicalDump.FoldPlayers | src/aliases.ts:135-150 | STAT lines are added up in place by canonical account |
| CanonicalDump.FoldSkills | src/aliases.ts:151-159 | SKILL lines are added up in place by canonical account |
| BalanceKnobs.AcceptedIsWrittenAsItself | src/balanceKnobs.ts:61-104 | For a validated knob every value the panel accepts is printed as the number it is |
| BalanceKnobs.NormalizedStays | src/balanceKnobs.ts:73-83 | Normalizing is idempotent: the text written is one the panel accepts and writes unchanged, so it can be restored |
| BalanceKnobs.BaselineCheckIsNeeded | src/balanceKnobs.ts:102-104 | Without the check that the baseline is written as itself a knob could accept a value and write one it refuses |
| BalanceKnobs.GridApart | src/balanceKnobs.ts:65-68 | Two values on the grid are a whole number of the last decimal apart |
| BalanceKnobs.PrintsAsItself | src/balanceKnobs.ts:51-63 | A number with no more decimals than the step is printed as itself |
| BalanceFold.RetagDerives | src/balanceFold.ts:37-53 | After a retag every sighted round counts for exactly what its patch resolves to now and its metric context carries the round's tag; what it was sighted on, and any row without a sighting, is unchanged |
| RefingerprintAgain.SecondRunIsIdleIffStillBlocked | src/balancePatches.ts:229-353 | A second run with the same lists changes nothing, merges nothing and moves no generation exactly when every row the first found blocked by a fold loop is still blocked after it |
| RefingerprintAgain.SecondRunChangesNothing | src/balancePatches.ts:229-353 | So where no group hits the fold-loop branch |
| RefingerprintAgain.KeeperAgain | src/balancePatches.ts:280-291 | The second run chooses the same keeper for every group that is left |
| RefingerprintCases.SecondRunIsNotIdle | src/balancePatches.ts:292-305 | Tables where the merge of one group frees a blocked row of another, so that running again does merge |
| RefingerprintCases.UnreadableRowClashes | src/balancePatches.ts:261-315 | Consistent tables where the rewrite violates the unique key: an unreadable row holds the hash another is given |
| RefingerprintCases.MergedPastItsKeeper | src/balancePatches.ts:272-323 | Consistent tables where a patch is merged into a keeper that is folded, and does not count for it |
| RefingerprintCases.MembersAreMerged | src/balancePatches.ts:306-309 | Every member of a group but its keeper and the blocked ones is in the reported merges |
| Inventories.IgnoringMissesWatchLists | src/balanceTriage.ts:194-228 | Two configs read under different watch lists that differ in a plugin alone and still hash apart once it is ignored |
| BalanceWriter.BalanceRolloutWriter.SyncNow | src/balanceWriter.ts:144-152 | After a sync exactly one sweep is queued and not started, the one returned; a burst of calls adds no second |
| BalanceWriter.BalanceRolloutWriter.StartOp | src/balanceWriter.ts:268-297 | The call that starts is the only one in flight against its box and the only one to end the hold it was given |
| BalanceWriter.BalanceRolloutWriter.constructor | src/balanceWriter.ts:60-78 | A fresh process over any tables with no hold of its own satisfies the writer's invariant |
| BalanceWriter.BalanceRolloutWriter.ConfirmOnSighting | src/balanceRollouts.ts:143-176 | A written row is confirmed by a queue match's sighting of the rollout's patch or of a config that carries all its values; no truthful row is made to lie |
| RolloutWriterLaws.StepKeepsAll | src/balanceWriter.ts:84-321 | Every step keeps the whole invariant, and every row that told the truth still does |
| AltHolds.HoldsStaySound | src/altHolds.ts:81-229 | Over every run, merges that move bans included: one open hold an account; each hold owns one ban, on its account while open and lifted once closed; no such ban without its hold; no open hold about a pair staff cleared |
| AltHolds.OnlyOpenHoldsKeepOut | src/mergePlayers.ts:341-345 | Over every run an account is kept out by a hold's ban only while a hold on that very account is open: a merge never locks the survivor out with the other account's hold |
| AltHolds.HoldDesk.MergePlayers | src/mergePlayers.ts:341-345 | The holds a merge answers are closed before the bans move |
| Sorting.SortSorts | src/ballot.ts:122 | The sort is a permutation, largest first |
| Sorting.SortIsStable | src/ballot.ts:122 | Elements of one key keep their order |
| Sorting.CutSorted | src/ballot.ts:202-203 | Cutting the sorted list off at a score is sorting what has at least that score |
| BallotDraw.DrawSlot | src/ballot.ts:201-205 | The option whose share of the weights the roll falls into, among exactly those beaten by fewer than SLOT_TOP scores, highest first |
| BallotDraw.DrawBallot | src/ballot.ts:177-215 | For each non-empty slot in order the draw of its roll, then the stickies nobody played recently, none twice |
| BallotDraw.DrawIsUnique | src/ballot.ts:136-145 | A roll over the same scores draws one campaign |
| BallotDraw.CutIsPool | src/ballot.ts:201-204 | The cut at the last of the top scores keeps exactly the options beaten by fewer than SLOT_TOP |
| DemoLaws.TurnCanLoseIffEndangers | src/demoOffload.ts:95-155 | A row's turn can lose a finished recording, whatever fails or is written meanwhile, exactly when it would upload over another recording's only copy or delete a file that another object's size vouches for |
| DemoLaws.NothingIsLostUnendangered | src/demoOffload.ts:74-206 | Over every run whose turns endanger nothing a finished recording is on disk or in the bucket at full size until its age prunes it |
| DemoLaws.StepKeeps | src/demoOffload.ts:74-162 | Every step keeps that but a turn that endangers a recording |
| DemoLaws.NoDemoIsLost | src/demoOffload.ts:74-206 | Over every run, rows taken over during uploads included, a finished recording is on disk or in the bucket under its own key at full size until pruned, if each turn finds its row's own file |
| DemoKeys.RowsServeTheirOwn | src/demoOffload.ts:95-150 | Over every run in which no other file takes a row over during its turn, a row's key is its own file's and leads to that file whole |
| DemoKeys.ServesIffStillNames | src/demoOffload.ts:138-145 | Writing a key leaves every download serving the recording its row names exactly when the row still names the uploaded file |
| DemoKeys.TakenOverRowServesAnother | src/demoOffload.ts:95-145 | A run in which a larger file is recorded during the upload: its row ends with the key of the other |
| KnobRestore.RestoreReachesItsTarget | src/balanceControl.ts:54-227 | The prediction from restored values is the patch's own fingerprint exactly when the patch recorded every knob and differs from the base in nothing else a fingerprint sees |
| KnobRestore.RestoreThenPreview | src/balanceControl.ts:109-227 | restoreValues fed through previewKnobs yields the recorded patch's fingerprint exactly when base and patch agree outside the knobs, both report every knob and the recorded pairs hold |
| KnobRestore.AnnouncedCanBeRestored | src/balanceControl.ts:109-227 | The patch an accepted draft announces can be written back exactly when every value the draft did not set stood as the panel writes it |
| KnobRestore.EveryApplyCanBeRestored | src/balanceControl.ts:43-227 | Over every run of applies on one panel every announced patch can be restored |
| BalanceKnobs.CoarserStepRewrites | src/balanceKnobs.ts:73-83 | After a step is made coarser an old value can be accepted and written as another text, so the patch it is announced in is refused by restore |
| BalancePublic.ApplyKnobs | src/balanceRollouts.ts:31-95 | An apply is refused in the order of the source's checks, from a rollout applied since the preview on; else it announces or reuses the patch that holds the predicted fingerprint, never a folded one |
| BalanceRuns.RunsStayConsistent | src/balanceFold.ts:19-87 | Over every run of the writers of the tables (rounds, sightings, release decisions, triage, folds, unfolds, merges, refingerprints, publications, applies, edits, past patches) all invariants hold: acyclic folds, patch_id = resolvePatch(sighted_patch_id), distinct fingerprints, published implies balance |
| ReleaseBalance.LinkReleaseSighting | src/releaseBalance.ts:6-28 | A release's decision is applied to the config its box reports if that still waits for triage |
| ReleaseBalance.DecisionApplies | src/releaseBalance.ts:19-26 | Decided not to be a balance change a config counts for what the box's config before it counts for, with all that is folded into it, and nothing else moves; decided to be one it moves nothing |
| HistoricalPatches.ApplyHistoricalPatches | src/historicalPatches.ts:17-50 | Once only, every past patch is inserted and the untagged rounds of its time are tagged; a dry run reports the same and changes nothing |
| HistoricalPatches.TaggedByStart | src/historicalPatches.ts:21-40 | An untagged round gets exactly the past patch its start falls into; none from the first recorded config on is guessed at, and no tagged round changes |
| HistoricalPatches.HistoricalKeepsConsistent | src/historicalPatches.ts:27-40 | It keeps every invariant and every stored patch |
| RolloutProgress.EverySyncIsAnswered | src/balanceWriter.ts:133-152 | In every run without end in which a turn that can go on does and transport calls settle, each sync is handed a queued sweep, and that sweep starts after the call |
| RolloutWriterLaws.SyncIsAnswered | src/balanceWriter.ts:144-152 | Over every run, fair or not, the sweep a sync was handed stays queued until the step that starts it |
| RolloutProgress.EveryTurnIsCloser | src/balanceWriter.ts:133-310 | Whatever happens, each step of the turn starts a queued sweep or brings it strictly closer (tasks ahead, a boot verify under way, steps left of the turn), and every other step leaves it as far as it was |
| RolloutProgress.OnwardIsEnabled | src/balanceWriter.ts:133-310 | The turn can always take a step, but for a boot verify that waits for the calls in flight |
| RolloutProgress.SweepCanStart | src/balanceWriter.ts:133-310 | And such runs exist from every state: calls that settle and turns that go on lead to the start of a queued sweep |
| DemoLaws.OnlyRecordingIsLost | src/demoOffload.ts:74-155 | A run from the empty site, awaits interleaved as in the code, every upload and check succeeding and nothing pruned, that ends with a finished recording neither on disk nor in any object |
| DemoLaws.FirstRowFindsItsOwn | src/demoOffload.ts:83-95 | The first row's turn follows the SELECT without an await and finds its own file: only a later row can be taken over before its turn |
| RolloutEffects.BoxIsWritten | src/balanceWriter.ts:224-310 | An idle, enabled, reachable, unleased box whose active row asks for the file ends its turn with the row written, the file on it, no hold left and the box idle again (left to its match if it has one) |
| RolloutEffects.WriteLandsAndSettles | src/balanceWriter.ts:268-297 | Before the turn goes on the file is on the box and the hold has ended, whatever else the site holds |
| RolloutEffects.ResumeMarks | src/balanceWriter.ts:299-310 | After the call the row of the active rollout is written exactly on a read-back of the rollout's own file, failed on any other result, and no other row changes |
| RolloutEffects.TimeoutMarks | src/balanceWriter.ts:257-264 | A timeout fails the active rollout's row and leaves the call and its hold |
| RolloutEffects.FailedWriteFreesTheBox | src/balanceWriter.ts:268-321 | A call that throws or reads back something else ends with the row failed, the file as it was and the box free |
| RolloutEffects.LateCallFreesTheBox | src/balanceWriter.ts:257-297 | A call that settles after its timeout frees the box and leaves the row failed |
| RolloutEffects.PlayersKeepTheBox | src/balanceWriter.ts:106-129 | Players on the box: nothing is written, no row changes and the box is free |
| RolloutEffects.NoStartFreesTheBox | src/balanceWriter.ts:268-278 | A write that cannot start fails its row and frees the box |
| RolloutEffects.SweepOpensRows | src/balanceWriter.ts:224-227 | A sweep gives every enabled box a pending row unless it has one, and changes none |
| RolloutEffects.PassTakesExactly | src/balanceWriter.ts:224-247 | A pass takes exactly the boxes that ask for the file, are idle, enabled, reachable and unleased and have no write in flight; only an unreachable one of them is failed |
| RolloutEffects.FailedIsTriedAgain | src/balanceWriter.ts:224-247 | The next sweep takes a box whose row failed as soon as it can be taken |
| RolloutEffects.QueuedTurns | src/balanceWriter.ts:133-205 | Syncs share the sweep not yet started; a boot check and a release queue their own turn |
| RolloutEffects.BootCheckBegins | src/balanceWriter.ts:333-336 | The boot check opens rows for the enabled boxes and goes through those it is given |
| RolloutEffects.BootCheckEnds | src/balanceWriter.ts:154-159 | After its last box the pass of a sweep begins |
| RolloutEffects.CheckMarks | src/balanceWriter.ts:333-356 | A box the boot check can read has its row written exactly when the file is the rollout's, and asked for again when it said so wrongly |
| RolloutEffects.ApplyOpensRows | src/balanceRollouts.ts:89-106 | An apply opens a pending row for every enabled box and leaves every other row and file |
| RolloutEffects.SightingConfirms | src/balanceRollouts.ts:161-176 | A sighting confirms exactly a written row of the active rollout |
| RolloutEffects.OwnHoldEndsIdle | src/balanceWriter.ts:95-103 | The end of the writer's own hold makes a reserved box idle exactly when it has no match; another's hold stays |
| RolloutEffects.ReleaseTakesExactly | src/balanceWriter.ts:177-205 | A release's turn writes a restarting box in time without a hold, an idle one under a hold, and no other |
| KeeperLaws.PreferredKeeps | src/balancePatches.ts:272-323 | Of recomputed rows that share a hash no other row holds, the rollout's, else the earliest published, else the earliest balance, else the earliest one has it afterwards and is otherwise unchanged; every other loses its fingerprint and counts for it unless it is folded; a row in its way stays as it is |
| KeeperLaws.OutsiderKeeps | src/balancePatches.ts:280-309 | A row that is not recomputed and holds the hash is unchanged and keeps it from all that are |
| KeeperLaws.SomeoneIsPreferred | src/balancePatches.ts:280-291 | Rows that share a hash always have a preferred one |
| KeeperLaws.LeftOversJoinTheHolder | src/balancePatches.ts:324-342 | A patch merged before counts for the same patch as whoever holds its hash now; never triaged and on its own it becomes balance |
| KeeperLaws.FingerprintIsCurrent | src/balancePatches.ts:272-315 | A recomputed row that nothing is folded through has the hash of its inputs under the new lists, or none |
| KeeperLaws.IgnoreRehashes | src/balanceTriage.ts:194-228 | An ignore gives such rows the hash without the plugins ignored from then on |
| KeeperLaws.IgnoreKeepsItsTarget | src/balanceTriage.ts:194-228 | An ignore never makes the balance patch it was aimed at count for the pending one, unless a folded patch stands to keep the target's hash |
| IgnoreCases.TargetCountsForTheTriaged | src/balanceTriage.ts:194-228 | Consistent tables where a folded announced patch keeps the hash, and the ignore makes the balance patch count for the pending one |
| SightingLaws.WatchListOnlyMeans | src/balancePatches.ts:74-84 | Only the watch list changed exactly when the two agree on every key both have, versionless builds aside, the keys of one side are some and all watched, and no cvar came or went |
| SightingLaws.NewConfigIsFoldedIff | src/balancePatches.ts:126-172 | A new patch is folded by its sighting exactly when the expected patch or else the box's last report differs from it in the watch list only; it joins the expected one's end first |
| SightingLaws.NewConfigIsAdded | src/balancePatches.ts:126-192 | A new config adds one row with its inputs and where its server came from, tags its round and its box, and changes nothing else |
| SightingLaws.KnownConfigIsTagged | src/balancePatches.ts:109-192 | A known config changes its round and its box, and no patch |
| SightingLaws.AlertsIff | src/balancePatches.ts:184-210 | Admins are told exactly when the box reports something else than before, by more than the watch list, and not as a rollout expects |
| TriageLaws.FoldsExactlyWhen | src/balanceTriage.ts:170-192 | A triage fold changes that one row, exactly when a waiting or balance detected patch of no active rollout is aimed at a balance patch that does not count through it |
| TriageLaws.IgnorableIff | src/balanceTriage.ts:194-221 | An ignore is let through exactly when the stand-in and the patch differ, in all the admin is shown, in plugins alone and the request names just these |
| TriageLaws.IgnoreLists | src/balanceTriage.ts:212-228 | It lists those plugins; refused or rolled back it changes nothing |
| TriageLaws.StandInIs | src/balanceTriage.ts:121-133 | The base stands in when it has inputs, else the patch this one came from, else the last seen before it that counts for the base |
| TriageLaws.ShownAre | src/balanceTriage.ts:31-62 | Which keys are put in words: changed ones but versionless builds, and one-sided ones but watched keys whose cvar neither came nor went |
| TriageLaws.UnfoldsExactlyWhen | src/balanceTriage.ts:230-245 | A triage unfold, when allowed, sets the row free as it was in public and points its children at its old end |
| TriageLaws.BalancesExactlyWhen | src/balanceTriage.ts:157-168 | A waiting patch becomes balance under the name and notes given, exactly when they fit |
| TriageLaws.MergesExactlyWhen | src/balanceMerge.ts:21-59 | A merge needs something stored to drop, an unfolded patch to keep, no rollout's patch among the dropped and no live match |
| TriageLaws.PublishesExactlyWhen | src/balancePublic.ts:65-90 | A balance patch with name, notes and counted rounds is public from the first time on; taken back it keeps no time |
| TriageLaws.AppliesExactlyWhen | src/balanceRollouts.ts:31-95 | An apply on a preview that stands announces a new config or takes the unfolded patch that has it, and makes it the rollout's |
| TriageLaws.LinksExactlyWhen | src/releaseBalance.ts:6-28 | A release's decision changes a patch exactly when it waits for triage and is not what the box reported before |
| HistoricalPatches.PastsAreTagged | src/historicalPatches.ts:21-40 | An untagged round gets the past patch from whose start to the next one's it began, before any config was recorded |
| HistoricalPatches.PastsAreStored | src/historicalPatches.ts:27-34 | Each past patch is stored as a balance patch with what was written of it |
| AbandonCauses.EveryQuitterWasConfirmed | src/abandon.ts:129-258 | Over every run a player is on record only by an answer about the match that confirms the line and names them or is about their line, or by the dump of a match already decided |
| AbandonCauses.EveryBanWasConfirmed | src/abandon.ts:129-258 | Over every run so is everyone banned for a match |
| AbandonCauses.EveryAbortWasConfirmed | src/abandon.ts:236-316 | Over every run a match is aborted for abandon only by such an answer with no side to give it to, or by a refused end |
| AbandonCauses.ComesOnRecordIff | src/abandon.ts:129-258 | A player comes on record exactly when rostered and confirmed by the answer or named by a decided match's dump |
| AbandonCauses.AbortedForAbandonIff | src/abandon.ts:236-316 | A match is aborted for abandon exactly at the first confirming answer with no side given, or a refused end, while it is open |
| AbandonCauses.FirstAnswerRecords | src/abandon.ts:236-258 | The first confirming answer records the side given, or none, for every rostered player it is about, with the score's gap, and asks for the end or aborts |
| AbandonCauses.LaterAnswerJoins | src/abandon.ts:228-234 | A later one adds the line's player under the side on record and asks again |
| AbandonCauses.UnconfirmedChangesNothing | src/abandon.ts:216-227 | An answer that confirms nobody changes nothing |
| AbandonCauses.LineOnlyAsks | src/abandon.ts:188-222 | A line alone records, bans and aborts nobody: it asks, about a rostered player of an open, unbooked match on a server |
| AbandonCauses.LineIsAskedAbout | src/abandon.ts:188-222 | And about such a line the server is always asked |
| AbandonCauses.EndOnlySettles | src/abandon.ts:287-316 | Any other answer to the end writes nothing |
| AbandonCauses.ResultCompletes | src/matchResult.ts:95-103 | A result completes an open match and adds exactly the rostered players its dump names if it was decided, under that side |
| AbandonCauses.RefusedEndAborts | src/abandon.ts:294-308 | A refused end aborts the open match, wraps it up once and clears the side on record |
| AbandonCauses.LadderCounts | src/abandon.ts:33-39 | The ladder counts exactly the player's match bans of the window not lifted early by hand |
| AltHolds.PlacedIff | src/altHolds.ts:81-148 | An account is held exactly when it exists, is no staff member's, has no open hold and was not answered for; it then has an active ban |
| AltHolds.BannedForGood | src/altHolds.ts:196-212 | An account banned from its hold is under none and has an active ordinary ban; no other ban changes |
| AltHolds.MergeClosesExactly | src/altHolds.ts:221-229 | A merge closes exactly the account's open hold and the survivor's over this account |
| AltHolds.MergeMovesBans | src/mergePlayers.ts:341-345 | A merge loses no ban: each of the account's is the survivor's, lifted only if it was a hold's |
| SafeRange.TakenIffSafe | src/balanceKnobs.ts:65-83 | A text is taken exactly when it reads as a number in the knob's range, a whole number of steps from its lowest, whole for an int knob |
| SafeRange.StepsAreTens | src/balanceKnobs.ts:51-56 | A step's decimals count tenths |
| SafeRange.NoErrorIff | src/balanceControl.ts:109-135 | A draft has no error exactly when every value drafted or carried over is such a number, every name is a knob's and as numbers no knob is above its pair |
| SafeRange.SentAreSafe | src/balanceControl.ts:109-135 | What an accepted draft sends reads back as the number asked for, inside the range |
| SafeRange.DraftIsWhatWasAsked | src/balanceControl.ts:109-135 | A safe drafted value is written as its number; an unsafe one leaves the value as it was |
| DemoMoves.RowsFollowTheLargest | src/demos.ts:84-123 | Each map's row follows the first of its largest files: grown by its own, taken over without its key by a larger one only |
| DemoMoves.FinishedFileIsMoved | src/demoOffload.ts:95-150 | A finished file whose upload and check succeed is in the bucket, its row written, and deleted exactly when space is asked for |
| DemoMoves.FailedMoveLeavesAll | src/demoOffload.ts:120-155 | A failed upload or check leaves row and file |
| DemoMoves.PassedOver | src/demoOffload.ts:95-118 | A row is passed over exactly when its file is gone, still written to, or keyed with no space asked for |
| DemoMoves.NothingGoesUnasked | src/demoOffload.ts:95-155 | Over every run without a request for space or its age a file stays on disk |
| BallotLaws.TallyLeaves | src/ballot.ts:219-232 | A bump halves and goes under a hundredth, a loser of two votes gains one, the winner's goes |
| BallotLaws.KeptIs | src/ballot.ts:138-148 | A player passed over in the last eight ballots keeps more than a quarter of the points and not all; any other keeps all |
| BallotLaws.AgreedScore | src/ballot.ts:187-200 | A lobby that agrees scores what each would; an empty one 4 |
| BallotLaws.EachHasTheSameSay | src/ballot.ts:187-200 | Another history for one player moves the score by the difference over the size of the lobby |
| BallotLaws.BumpLifts | src/ballot.ts:196-200 | A bump lifts a score by as much as it is |
| BallotLaws.DrawnIsAmongTheBest | src/ballot.ts:201-205 | A slot draws a campaign fewer than three others beat; the first slot its best |
| BallotLaws.EachOfTheBestCanBeDrawn | src/ballot.ts:151-205 | Each of those with any weight is drawn by some roll |
| DumpAccepts.AcceptedIff | src/dumpParse.ts:106-200 | An answer is accepted exactly when a header is read, names its match (and state under our nonce), and every line to the first END says what its kind has to |
| DumpAccepts.LineReadsIff | src/dumpParse.ts:141-178 | A line is read exactly when its fields are what its kind needs |
| DumpAccepts.EndReadsIff | src/dumpParse.ts:179-194 | An END line closes the block exactly with a score, a winner and the header's nonce and state |
| AimRules.FiresIff | src/aimRules.ts:151-166 | Exactly the automatic weapons' group is found: ten kills, a rate, and so many headshots less likely than one in a thousand |
| AimRules.MineCounts | src/aimRules.ts:92-102 | The group's kills and headshots are those with its weapons, with or without the prefix |

## Left out

- I/O: FTP, SSH and local transports, RCON, UDP, bucket requests and file reads are outcomes (success, failure, late effect) given to a step.
- SQL text, sha256, regular expressions and dates: maps, an injective hash, lines split into words, whole-number times.
- Floating-point rounding, and the log space of binomialTail: terms are the exact products.
- The text of alerts, notes, previews and admin views; Discord posting; the onFreed hook and the sweep timer.
- Inventories.FingerprintOf: the JSON text that is hashed is the map itself.
- BalanceKnobs.NormalizeKnobValue: the 1e-9 tolerances of range and grid, since the arithmetic is exact; reading and printing a number are any functions that agree. The checks of the watch list's names and paths.
- currentValues, baseInventory and the choice of the queue match whose patch is the base: parameters of KnobRestore.
- BalanceWriter.BalanceRolloutWriter.ConfirmOnSighting: the values of a rollout and the sighted config are given to the call, and seen_patch_id and the times are not kept.
- BalanceWriter.BalanceRolloutWriter.ApplyKnobs: the text that is rendered is any text, and what previewKnobs refuses is decided in BalancePublic and KnobRestore.
- BalancePublic.ApplyKnobs: what previewKnobs found is given to it as four flags.
- BalanceRuns.RunsStayConsistent: the triage backfill of an old database when it is opened is not a step; the tables start empty.
- KeeperLaws.IgnoreKeepsItsTarget: one way; with a folded keeper where the target ends depends on the order of the other merges of the same run.
- balance_patch_servers and release_boxes rows, which watch list a box reads, release_id and reviewed columns, drift reports: no invariant depends on them.
- pooledRate, storeAim, evaluateAimMatch and scanAimMatches: the pool's rate is a function HsShare is given; rows a match and kind are inserted once.
- OpenSkill's predictWin: an arbitrary function of the two teams.
- freshestPlay and ignoredBy on ballot options: shown to staff only.
- The visibility filter of altClusters and what it shows of each member; a held account's status and its restoring.
- AbandonLaws.OverStaysOver: an admin's void of a completed match is not one of the steps.
- DemoLaws.NoDemoIsLost: overlapping sweeps and a PUT that lands after it was reported failed are not among the steps.
- RolloutWriter.World: the release engine's own writes and the two caps of writeForRelease are nondeterministic steps, not clocks.
- mergePlayers beyond its alias, hold and ban steps, matchResult beyond its abandoner step, the rating code.
- scripts, configuration, campaign tables and the web routes.
