# FUDGE: collation protocol, block database, clocks and genesis

FUDGE drives a relay chain and any number of parachains in one process: it builds blocks, imports them,
lets the relay chain collect and enact parachain blocks, and lets a user rewrite the state of any chain's
latest block. These modules model that logic and prove what it keeps over whole runs.

- **Ledger, Externalities, Database, StandAlone.** A block database keyed by hash whose tip can be reverted
  and re-imported with a new state root, and the overlay a closure runs on. Main result: the database
  refines a plain list of states. Building and importing append; a successful commit replaces the last
  element by the closure's meaning on it and changes no body; reads at a height read that element; every
  failure has its exact cause and its exact effect on the chain. On the overlay a transaction rolled back
  leaves nothing.
- **ParasStorage.** The relay storage that onboarding and enactment write: the sorted list of parachains,
  heads, code, and cores by rank.
- **Protocol, Runs.** Every operation of the relay-chain builder, the collators and the parachain builders as
  a function on values, error paths included, and runs of any such calls over any number of parachains.
- **Enacting, Approvals, Coverage.** Invariants over whole runs: what one import enacts and collects, exactly
  when the enactment loop succeeds and what it leaves when it does not, order and approval of parachain
  blocks, exactly when the approved block is the enacted one, heights, cores and backing numbers.
- **Schedule, Sessions, OnePending.** What the generated `new` and `evolve` do, round by round, over any
  number of parachains and any mix of evolving and user mutations: closed form, progress, that nothing but
  the environment can make them fail, and, while evolves succeed, that at most one collation is ever pending,
  of a block built on the head its collator decodes, and is enacted with that very block approved.
- **Failures.** Every state a round of `evolve` can end in, what the next round does from it, and on which
  backends `evolve` can succeed at all.
- **Differences.** Where the code does something its callers may not expect: the exact condition of each case
  and inputs that meet it.
- **Builders, RelayBuilder, Companion.** The builders, collators, shared cells, `new` and `evolve` as objects
  updated in place, with the source's loops, each proved equal to the function on values that describes it.
- **WaitForBlock.** `wait_for_block` as interleaved steps against imports, commits, reverts and other waiters.
- **Time, Instances.** Saturating time, Aura slots, and the shared registry of clocks under interleaving.
- **Genesis.** Merging storages into a genesis state.

Hashes are symbolic and therefore injective (`HashOf(header)`), and a state root is the state itself. What
the environment decides is a parameter: what the rest of a block's execution writes, what the client answers
to an import, where the backend fails, what the wall clock says. Contracts assumed of code outside the
repository:

- The client moves the best block only onto a child of it, although the builders ask for a custom fork choice
  (core/src/builder/parachain.rs:673-677, core/src/builder/relay_chain.rs:725-729). Every statement about
  linked chains, and about imports onto a chain whose tip was rewritten, rests on this.
- A reverted block's header and body stay readable. Its state stays readable when the backend is an archive,
  as it is in the backends the repository makes by default (core/src/provider/state.rs:167,
  core/src/provider/backend.rs:62 and 173), and is gone otherwise. The model covers both kinds.
- Whether a relay state holds usable code depends on storage items outside the paras pallet; executing a block
  leaves the items of the paras pallet alone.
- `head_data` is the header of the collated block; a compact proof exists exactly over the state the recorded
  proof was taken on.
- An import through the client inserts and notifies under the write half of the import lock. This is assumed
  of the relay builder's imports too, whose block origin is an initial sync
  (core/src/builder/relay_chain.rs:725).
- Two child-trie descriptions are compatible when they are equal.

The core builder's commit applies a closure as a function from state to outcome. The stand-alone builder runs
its key-value closures on the overlay of Externalities, reads as they are and commits by `ExecuteOnOverlay`,
proved equal to `Meaning`, whose outcome goes to that commit; the other builders take the function as given.

Results where documentation or intent and code differ:

- A forced enactment reads its parent's code hash after its own commit has reverted that parent. Above genesis
  it therefore succeeds on an archive only (`Enacting.LoopSucceedsIff`,
  `Enacting.DiscardingBackendEnactsNothing`), and a healthy `evolve` of at least one parachain after `new`
  succeeds exactly on an archive, ending elsewhere in that read's error
  (`Failures.HealthyEvolveIffArchive`, `Failures.GenesisEvolvesIffArchive`).
- A relay import that ends in `Ok` may not have moved the chain (`Differences.OkImportGrowsIffImported`,
  `Differences.AnswersAreSwallowed`).
- The block a collator approves is the enacted one exactly when its parachain was not rebuilt in between
  (`Approvals.ApprovalsAreExact`, `Differences.RebuiltBlockIsApproved`), and a parachain's approved block
  extends its chain exactly when rewrites of the tip left the state alone
  (`Differences.RewrittenTipOrphansBlock`).
- After a relay import fails inside an `evolve`, the next round collects two blocks
  (`Differences.FailedImportLeavesTwoPending`); at most one collation is pending exactly when at most one
  registered cell holds a block (`OnePending.AtMostOnePendingIff`).
- `evolve` alone makes the approved block differ from the enacted one once a round fails with its block
  collected: the parachain's next round rebuilds, and the new block is approved for the head of the old one
  (`Failures.RetryApprovesExactlyIff`, `Failures.FailedBuildThenDiverges`).
- A parachain build that fails inside an `evolve` leaves the relay block waiting, and every later `evolve`
  panics in its first call (`Failures.RoundLeaves`, `Failures.PanicsIffWaiting`).
- A commit made through a builder wakes no waiter of `wait_for_block` (`WaitForBlock.CommitWakesNobody`).

## Model

| member | source | states |
|---|---|---|
| Ledger.CommitKeepsLinks | core/src/builder/core.rs:411-437 | however a commit ends the chain stays parent-linked with consecutive numbers from genesis; a success replaces exactly the last state |
| Ledger.ImportKeepsLinks | core/src/builder/core.rs:718-758 | after any import answer the chain stays linked; `Imported` on a child of the best block appends exactly its state |
| Externalities.ReadThroughIsLookup | core/src/provider/externalities.rs:173-176 | a read through any stack of overlay layers is a lookup in the state they amount to |
| Externalities.CallCoupled | core/src/provider/externalities.rs:178-218 | any storage call, nested transactions included, gives the same answer on the overlay as on the state with snapshots, and keeps the two in step |
| Externalities.CommitMerges | core/src/provider/externalities.rs:189-206 | committing a layer into the one below changes no state read through them |
| Externalities.CallReads | core/src/provider/externalities.rs:173-206 | what one call does to a reader of the overlay, without the reference: a write changes its own key and no other, opening and committing change none; which layers each call leaves alone; closing with nothing open is answered so and changes nothing |
| Externalities.RollbackRestores | core/src/provider/externalities.rs:173-206 | opening a transaction, any balanced calls and rolling it back leave the overlay, and with it what every key reads as, the way it was |
| Externalities.RolledBackMeansNothing | core/src/provider/externalities.rs:178-218 | a committed closure that rolls a transaction back, whatever balanced calls ran inside, means what it would mean without it; one that does nothing else leaves the state as it found it |
| Externalities.CommitEndsByOpen | core/src/provider/externalities.rs:178-218 | which of the four endings a commit has is decided by the steps it has and the transactions its closure leaves open; where nothing is rolled back every key ends as it was last written |
| Externalities.ExternalitiesProvider.Run | core/src/provider/externalities.rs:173-176 | a whole closure of any length runs on the overlay as it would directly on the state |
| Externalities.ExternalitiesProvider.ExecuteWith | core/src/provider/externalities.rs:173-176 | the value of a dry run is the closure's own on the backend state, which is not touched |
| Externalities.ExternalitiesProvider.ExecuteWithMut | core/src/provider/externalities.rs:178-218 | value, storage changes and both transaction errors are those of the closure run directly inside one transaction |
| Externalities.ExecuteOnOverlay | core/src/provider/externalities.rs:178-218 | for every closure, state and length the overlay execution equals the reference meaning |
| Database.UnfileTip | core/src/builder/core.rs:816-832 | reverting the tip leaves a chain still linked, indexed and with every remaining state available |
| Database.FileBlock | core/src/builder/core.rs:616-640 | filing a final block at its number keeps index, records and links in step with the list of headers |
| Database.Builder.GetBlockHash | core/src/builder/core.rs:760-787 | a number resolves to the canonical header's hash below the height and to an error from it on; a hash is returned as given; a failing lookup is its own error |
| Database.Builder.GetBlockHeader | core/src/builder/core.rs:789-814 | the header found by number is element n of the chain, by hash the one with that hash, reverted blocks included; otherwise the exact error |
| Database.Builder.LatestHeader | core/src/builder/core.rs:218-239 | the last header of the chain |
| Database.Builder.DryRun | core/src/builder/core.rs:336-357 | a read at height m runs on element m of the list of states, without a height on the last, by hash on that block's state as long as the backend holds it; nothing changes |
| Database.Builder.StateVersion | core/src/builder/core.rs:306-334 | decided by the code in the state of whatever block is best at the moment of the call |
| Database.Builder.RevertOne | core/src/builder/core.rs:816-832 | best and finalized move to the parent, the index loses one number, headers and bodies stay; the state stays on an archive only |
| Database.Builder.Revert | core/src/builder/core.rs:816-832 | n blocks come off, never genesis |
| Database.Builder.CheckBestHashAndRevert | core/src/builder/core.rs:816-832 | in every valid state the guard holds, so exactly n blocks come off and at a commit exactly the tip |
| Database.Builder.CommitOperation | core/src/builder/core.rs:427-437 | the operation's block becomes best and finalized at its own number with its own body; older heights, their bodies and every other record are as before |
| Database.Builder.MutateGenesis | core/src/builder/core.rs:458-540 | the genesis header with only its root changed, an empty body, or the exact error of the point that failed |
| Database.Builder.MutateNormal | core/src/builder/core.rs:542-640 | the reverted block's own header and body with only the root changed, or the exact error of the point that failed |
| Database.Builder.ReplaceTip | core/src/builder/core.rs:411-427 | the tip is off before the closure runs, which sees the database without it, and stays off on every later error; the version comes from the parent's code |
| Database.Builder.FillOperation | core/src/builder/core.rs:357-427 | everything before the backend commit: which failures leave the chain alone and which leave it one block short |
| Database.Builder.WithMutState | core/src/builder/core.rs:336-456 | success replaces the last state by the closure's result and nothing else, no body changed, with its value returned; every failure gives the first cause in order and the exact chain left behind |
| Database.CommitErrors | core/src/builder/core.rs:336-456 | each point of a commit that can fail has its own error, in order: the backend before the code, the code, the closure, the backend after it; a commit of genesis skips the revert and what is read back |
| Database.Builder.BuildBlock | core/src/builder/core.rs:676-715 | the proposal is a child of the best block with the given state and digest; nothing is stored |
| Database.Builder.ImportBest | core/src/builder/core.rs:718-758 | only an import error is reported; only `Imported` on a child of the best block appends its state and its body, any other answer ends in `Ok` with both lists unchanged; every other record keeps header and body |
| Database.Builder.ImportLeaf | core/src/builder/core.rs:718-758 | an import that is not to become best never moves the canonical chain or its bodies; a new leaf on a known parent is filed with header, body and state |
| StandAlone.StandAloneBuilder.constructor | core/src/builder/stand_alone.rs:128-156 | nothing built, nothing imported |
| StandAlone.StandAloneBuilder.BuildBlock | core/src/builder/stand_alone.rs:214-283 | panics exactly when a block is waiting; otherwise the waiting block is a child of the best block with the given body or the call failed and nothing waits |
| StandAlone.StandAloneBuilder.ImportBlock | core/src/builder/stand_alone.rs:285-306 | the slot is emptied first; states and bodies grow by the built block's exactly on `Imported`; the waiting block always sits on the best block, failing calls included |
| StandAlone.StandAloneBuilder.WithStateAt | core/src/builder/stand_alone.rs:318-326 | a closure read at height m is the closure on state m |
| StandAlone.StandAloneBuilder.WithMutState | core/src/builder/stand_alone.rs:328-334 | panics exactly when a block is waiting; success or the exact error; success replaces the last state by what the closure, run on the overlay, means on it; no commit changes a body |
| ParasStorage.SortMembers | core/src/builder/relay_chain.rs:574-580 | sorting the list of parachains yields exactly the same ids in order |
| ParasStorage.SortSorts | core/src/builder/relay_chain.rs:574-580 | sorting any list of ids orders it and keeps each as often as it was there |
| ParasStorage.AddParachainKeepsSorted | core/src/builder/relay_chain.rs:574-580 | adding a new or known id keeps the list strictly sorted and adds nothing else |
| ParasStorage.PositionIsRank | core/src/builder/relay_chain.rs:825-847 | the index found in a strictly sorted list is the number of smaller ids |
| ParasStorage.OnboardingsKeepCodes | core/src/builder/relay_chain.rs:590-605 | over any onboardings, re-onboardings and shared code, every current and archived code hash resolves to code with that hash and has a reference |
| ParasStorage.OnboardingsKeepSorted | core/src/builder/relay_chain.rs:574-580 | over any onboardings the list stays strictly sorted and holds exactly the ids it held or was asked for |
| ParasStorage.HasCodeUnlessZero | core/src/builder/relay_chain.rs:582-605 | an id has a current code hash exactly when it had one or some onboarding brought code that does not hash to zero |
| ParasStorage.OnboardingsWrite | core/src/builder/relay_chain.rs:607-627 | over any onboardings an id asked for is a parachain with the head last asked for, any other id keeps lifecycle, head and code, and the items onboarding does not own are unchanged |
| ParasStorage.CurrentCodeIsLastBrought | core/src/builder/relay_chain.rs:582-599 | the current code hash of an id asked for, where it has one, is that of the code it brought last, zero included |
| ParasStorage.PastCodeIsLastArchived | core/src/builder/relay_chain.rs:584-592 | a past entry is the hash current before the last request of that id in that block that found one, or what was there before |
| ParasStorage.ReferencesCountOnce | core/src/builder/relay_chain.rs:594-605 | however often a code is brought it is counted once, and a count already there stays |
| ParasStorage.EnactClosureEnds | core/src/builder/relay_chain.rs:790-894 | each of the enactment closure's three errors with its exact cause, and that all it leaves then is the injected commitments |
| Enacting.EnactOneOk | core/src/builder/relay_chain.rs:785-929 | a successful enactment makes the collated header the parachain's head, takes the core by rank, and approves whatever block the cell holds then |
| Enacting.EnactCommitEnds | core/src/builder/relay_chain.rs:785-894 | each ending of an enactment's commit with its exact cause, and the chain where the closure did not run |
| Enacting.JudgeEnds | core/src/builder/relay_chain.rs:896-929 | each ending of the judge's part with its exact cause; a failure touches no cell |
| Enacting.EnactOneStops | core/src/builder/relay_chain.rs:790-894 | an enactment whose closure ends in an error leaves the injected commitments in the tip and nothing else |
| Enacting.EnactFromLog | core/src/builder/relay_chain.rs:779-932 | one candidate is recorded for each pending collation of a finished loop, in order |
| Enacting.EnactedAllAt | core/src/builder/relay_chain.rs:779-932 | each of them is the one its collation and cell determine at the start of the loop |
| Enacting.EnactFromSlots | core/src/builder/relay_chain.rs:896-929 | the cells of the collated parachains are approved once each, all others left alone |
| Enacting.EnactFromTip | core/src/builder/relay_chain.rs:779-932 | the loop's tip rewrites keep the height, the list and the codes; exactly the collated parachains get a new head, the collated header |
| Enacting.ArchiveEnactsIff | core/src/builder/relay_chain.rs:779-932 | on an archive the loop over any number of collations succeeds exactly when each could be enacted on the state the loop starts from, all reading the parent captured before it |
| Enacting.GenesisEnactsIff | core/src/builder/core.rs:407-410 | without an archive, at genesis, exactly when besides every enactment but the last leaves the state as it is |
| Enacting.DiscardingBackendEnactsNothing | core/src/builder/relay_chain.rs:820-833 | without an archive, above genesis, it succeeds for no collation: the code hash is asked for at a block the commit has just reverted, and the injected commitments stay |
| Enacting.LoopSucceedsIff | core/src/builder/relay_chain.rs:779-932 | the three together: the exact condition for the loop an import starts |
| Enacting.EnactFromStops | core/src/builder/relay_chain.rs:779-932 | a loop that fails has enacted and approved everything before some collation, failed at that one, not looked at the rest, and leaves all of them pending |
| Enacting.CollectIsPending | core/src/builder/relay_chain.rs:750-777 | collecting from an empty list yields one collation for each parachain with a built block, in onboarding order |
| Enacting.CollectOneEnds | core/src/builder/relay_chain.rs:752-774 | each error of collecting from one collator with its exact cause; none of them changes anything |
| Enacting.CollectsIffCollectable | core/src/builder/relay_chain.rs:750-777 | the collecting loop succeeds exactly when every collator could be collected from |
| Enacting.CollectFromStops | core/src/builder/relay_chain.rs:750-777 | a collecting loop that fails stops at the first collator that could not be collected from, with its error, and keeps what those before it added |
| Enacting.ImportLeavesPending | core/src/builder/relay_chain.rs:714-748 | after every successful relay import the pending collations are exactly the parachains whose `next_block` is set, generated on the block just imported |
| Enacting.PendingHasTargets | core/src/builder/relay_chain.rs:750-777 | with distinct ids and cells, pending collations have distinct ids and distinct cells |
| Runs.StepKeepsChains | core/src/builder/relay_chain.rs:635-960 | any call, failing ones included, keeps every chain linked and a relay block waiting for import a child of the relay's best block |
| Runs.RunKeepsChains | core/src/builder/core.rs:411-437 | hence over every run of relay, parachain, collator and user calls |
| Runs.StepRegisters | core/src/builder/relay_chain.rs:563-633 | only an onboarding that succeeds registers a collator, behind those registered before |
| Runs.OnboardWrites | core/src/builder/relay_chain.rs:563-633 | an onboarding that succeeds lists the id, makes it a parachain, stores its head and its code, and leaves the rest of the tip's state |
| Runs.BuildRelayProposes | core/src/builder/relay_chain.rs:635-712 | the waiting block is a child of the tip, its state the tip's with the block's own number and the executed rest; a failing build changes nothing |
| Runs.ImportRelayRefused | core/src/builder/relay_chain.rs:714-748 | with nothing waiting a relay import changes nothing; one the client refuses only takes the block |
| Runs.BuildParaEnds | core/src/builder/parachain.rs:547-641 | a failing build leaves builder and cell; a successful one puts a child of the tip with its body and the state its proof was taken on into the cell |
| Runs.ImportParaEnds | core/src/builder/parachain.rs:657-694 | nothing approved: nothing done; refused: the block stays approved; otherwise it is taken and listed |
| Runs.JudgementLeaves | core/src/builder/parachain.rs:332-360 | rejecting drops the block to collect and keeps the approved one; approving with nothing there is an error that changes nothing |
| Runs.MutateRelayEnds | core/src/builder/relay_chain.rs:954-960 | a relay commit panics exactly with a block waiting, succeeds exactly with usable code and no fault, and fails with its tip off unless the backend failed first |
| Runs.MutateParaEnds | core/src/builder/parachain.rs:765-777 | a parachain commit rewrites the tip's state and nothing else, or fails with the tip off unless the backend failed first |
| Approvals.StepKeepsOrder | core/src/builder/parachain.rs:332-396 | any call keeps: everything imported was approved, and blocks pass from `next_block` over `next_import` to `imports` in the order they were built |
| Approvals.RunKeepsOrder | core/src/builder/parachain.rs:627-694 | over every interleaving nothing is imported unapproved or twice, and build order is kept |
| Approvals.CollectedUntilRebuild | core/src/builder/parachain.rs:332-396 | over any calls, relay imports and failures included, a cell holds the collected block or none until its parachain builds again, and none or a younger one from then on |
| Approvals.UndisturbedHolds | core/src/builder/parachain.rs:332-351 | with no judgement, no relay import and no rebuild the cell still holds that very block, so approving it cannot fail |
| Approvals.ImportEstablishesCollected | core/src/builder/relay_chain.rs:744-777 | a relay import ends with every pending collation being the block its cell holds |
| Approvals.ApprovalsAreExact | core/src/builder/relay_chain.rs:785-929 | from a finished import over any calls at all to any later import, finished or not: each new history entry is of a pending collation, and for one pending from the start the block approved, if any, is the collated one exactly when its parachain was not rebuilt |
| Approvals.ApprovedIsCollectedIffNotRebuilt | core/src/builder/relay_chain.rs:896-929 | with no relay import in between, a successful one enacts and approves every pending collation, the block approved being the collated one exactly for the parachains that were not rebuilt |
| Coverage.CleanStep | core/src/builder/relay_chain.rs:535-748 | a successful call, whatever it writes, keeps pending collations at the current height and backing numbers consecutive, and adds a block exactly when it is an import |
| Coverage.CleanRunStaysCurrent | core/src/builder/relay_chain.rs:779-932 | over every run whose relay calls succeed and whose imports answer `Imported`, whatever the user's mutations write, the height grows by one an import however often tips are rewritten, and each candidate's relay-parent number is its backed-in number plus one |
| Coverage.CleanRunStaysCovering | core/src/builder/relay_chain.rs:574-630 | where those mutations also leave the list of parachains and the presence of heads alone, the stored list stays strictly sorted and covers every registered collator |
| Coverage.NeverNotOnboarded | core/src/builder/relay_chain.rs:825-847 | from any state such a covering run reaches an import may fail, but never because a pending parachain is not onboarded |
| Coverage.EnactFromEntries | core/src/builder/relay_chain.rs:785-894 | every entry an enactment loop adds, finished or not, is of a pending collation, with the captured parent's number and the place of its id in the stored list |
| Coverage.CoresAreRanks | core/src/builder/relay_chain.rs:825-847 | any relay import, finished or not and on any answer, from any state a covering run reaches: each candidate it records has as core the rank of its id in the stored list, so two of them share a core exactly when they are the same parachain's |
| Schedule.CollectSucceedsIffProvable | core/src/builder/parachain.rs:254-276 | collecting succeeds exactly when every built block was recorded on the state of the head the relay stores |
| Schedule.FirstImport | core/src/builder/relay_chain.rs:714-777 | an import with nothing to enact collects the one built block and changes nothing else |
| Schedule.SecondImport | core/src/builder/relay_chain.rs:714-932 | an import with one pending collation enacts it on the block just imported, approves its cell and leaves nothing pending; `imports` keeps the block as built |
| Schedule.CollectPhaseWorld | core/src/builder/companion/src/expand/mod.rs:205-221 | the whole system after head update, relay build, parachain build and relay import, in closed form |
| Schedule.EnactPhaseWorld | core/src/builder/companion/src/expand/mod.rs:221-226 | the whole system after the second relay build and import and the parachain import, in closed form |
| Schedule.EvolveParaAdvances | core/src/builder/companion/src/expand/mod.rs:205-230 | when every import is answered `Imported` a successful round ends quiescent, the relay two blocks higher, its parachain one, that parachain's new head stored, the enacted block the one collected, approved and imported, and all else as it was |
| Schedule.EvolveParaSucceeds | core/src/builder/companion/src/expand/mod.rs:205-230 | progress: on an archive, in a healthy environment with usable code and every parachain hosted, a round cannot fail, however the parachain's tip was rewritten before it |
| Schedule.CollectPhaseSucceeds | core/src/builder/companion/src/expand/mod.rs:205-221 | collecting asks for no archive: with usable code, every parachain hosted and no fault it succeeds on any backend |
| Schedule.EvolveFromEvolves | core/src/builder/companion/src/expand/mod.rs:205-230 | when every import is answered `Imported`, for any n parachains a successful `evolve` from quiescence ends quiescent, the relay exactly 2n higher, each parachain exactly one, every head stored |
| Schedule.EvolveFromSucceeds | core/src/builder/companion/src/expand/mod.rs:205-230 | on an archive, in a healthy environment with usable code and every parachain hosted, `evolve` succeeds and keeps it so |
| Sessions.OnboardFromHosts | core/src/builder/companion/src/expand/mod.rs:112-124 | the onboarding loop registers each parachain at its place with its head, and with its code unless that hashes to zero, and moves no height |
| Sessions.NewEstablishes | core/src/builder/companion/src/expand/mod.rs:104-133 | when its import is answered `Imported`, `new` on unused builders ends quiescent and one relay block higher with every parachain hosted; aligned with the builders exactly when the attribute ids are the builders' ids |
| Sessions.NewHosts | core/src/builder/companion/src/expand/mod.rs:112-124 | with no code hashing to zero an aligned companion meets what `evolve` needs to succeed |
| Sessions.SessionHeights | core/src/builder/companion/src/expand/mod.rs:186-230 | when every import is answered `Imported`, after any mix of k evolves of n parachains and user mutations, all successful, the relay is 2nk higher and every parachain k |
| Sessions.SessionSucceeds | core/src/builder/companion/src/expand/mod.rs:186-230 | on an archive, in a healthy environment, no session of evolves and mutations that keep the parachains hosted and the code usable ever fails |
| Sessions.NewSucceeds | core/src/builder/companion/src/expand/mod.rs:104-133 | with distinct attribute ids, no code hashing to zero, usable code and a healthy environment `new` cannot fail |
| Sessions.NewFromGenesis | core/src/builder/companion/src/expand/mod.rs:104-133 | from any genesis states with usable code `new` succeeds on either kind of backend and ends where `evolve` can start |
| Sessions.FromGenesis | core/src/builder/companion/src/expand/mod.rs:104-230 | on an archive, from any genesis states with usable code and for any n parachains, `new` and then any healthy session succeed and end quiescent, the relay at 2 + 2nk blocks and every parachain at 1 + k |
| OnePending.CollectsOnParentAlways | core/src/builder/companion/src/expand/mod.rs:205-221 | whenever the collecting half of a round succeeds, on any backend, with any answers and whatever the other parachains are, the head the collator decodes is the header its block was built on, and its state the one the proof was recorded on |
| OnePending.SessionKeepsOnePending | core/src/builder/companion/src/expand/mod.rs:186-230 | a session whose evolves succeed, whatever the backend and the client's answers, is a run of calls before, between and after which at most one collation is pending, and every pending one is of a block built and proved on the head its collator decodes |
| OnePending.SessionApprovesExactly | core/src/builder/companion/src/expand/mod.rs:186-230 | the k evolves of n parachains of such a session enact exactly nk blocks, and each time the block approved is the very block whose head was enacted |
| OnePending.AtMostOnePendingIff | core/src/builder/relay_chain.rs:714-777 | after any successful relay import at most one collation is pending exactly when at most one registered collator's cell holds a block |
| OnePending.OneReadsAtTheTip | core/src/builder/relay_chain.rs:782-788 | with at most one pending, capturing the parent before the loop makes no difference: every read is made at the current tip |
| Failures.PanicsIffWaiting | core/src/builder/companion/src/expand/mod.rs:205-230 | from any world at all a round panics exactly when a relay block is waiting before it, and then changes nothing, so every later round panics too |
| Failures.RoundLeaves | core/src/builder/companion/src/expand/mod.rs:205-230 | however a round ends from an idle world: a relay block is left waiting exactly when the parachain's build fails after the relay block was built; the world is idle again exactly when the round failed earlier or has enacted its block, that block being the one approved; otherwise the block is left in its cell and nothing else is under way |
| Failures.EvolveLeaves | core/src/builder/companion/src/expand/mod.rs:186-230 | a whole `evolve` from an idle world, whatever fails, ends with a relay block waiting, idle, or with one block left in its cell, and idle when it succeeds |
| Failures.RetryApprovesExactlyIff | core/src/builder/companion/src/expand/mod.rs:205-230 | after a round that left its block behind, the parachain's next successful round enacts one block and approves the one it built, which is the enacted one exactly when the block left had not been collected |
| Failures.FailedBuildThenDiverges | core/src/builder/companion/src/expand/mod.rs:221-230 | from every ready world on an archive with usable code and every parachain hosted: a round healthy but for its second relay build leaves its block collected, and a healthy round of the same parachain then succeeds with the new block approved for the head of the old one |
| Failures.LeftoverCollectsIff | core/src/builder/parachain.rs:254-276 | with no fault and every parachain's head stored, a block left uncollected lets another parachain's next round collect exactly when the head still stored for its parachain has the state the block's proof was recorded on |
| Failures.DiscardingBackendNeverEvolves | core/src/builder/relay_chain.rs:820-833 | without an archive, from any idle world above genesis, no round succeeds whatever the environment does |
| Failures.DiscardingBackendLosesCode | core/src/builder/relay_chain.rs:820-833 | without an archive a healthy round with usable code and every parachain hosted ends in the failure to read the code hash |
| Failures.HealthyEvolveIffArchive | core/src/builder/companion/src/expand/mod.rs:186-230 | with usable code and every parachain hosted a healthy `evolve` of at least one parachain succeeds exactly on an archive |
| Failures.GenesisEvolvesIffArchive | core/src/builder/companion/src/expand/mod.rs:104-230 | from any genesis states with usable code `new` succeeds on either kind of backend, and the first healthy `evolve` after it exactly on an archive |
| Differences.OkImportGrowsIffImported | core/src/builder/core.rs:733-757 | an import ending in `Ok` lists its block as imported always and moves the chain exactly when the client answered `Imported` |
| Differences.AnswersAreSwallowed | core/src/builder/core.rs:733-757 | from every ready world each answer that is neither `Imported` nor an error is swallowed: the block is listed, the call succeeds, the chain stays |
| Differences.CollectsIffStoredRootIsCurrent | core/src/builder/parachain.rs:254-276 | without the head update the import succeeds exactly when the stored head still carries the state root of the parachain's tip |
| Differences.RebuiltBlockIsApproved | core/src/builder/parachain.rs:338-348 | in every healthy round a rebuild between the two relay imports makes the judge approve the new block for the head of the old one |
| Differences.RewrittenTipOrphansBlock | core/src/builder/parachain.rs:657-694 | after any commits and on any answer, importing an approved block lists it and takes it from the cell unless it errors, and extends the chain exactly on `Imported` with the state left as it was when the block was built |
| Differences.FailedImportLeavesTwoPending | core/src/builder/companion/src/expand/mod.rs:205-221 | from every ready world: a round whose relay import fails leaves its block in its cell, and the next parachain's round collects both |
| Builders.FudgeCollator.CreateCollation | core/src/builder/parachain.rs:243-330 | a collation of the block the cell holds now, none without a block, an error when the proof is not over the given head's state |
| Builders.FudgeCollator.Approve | core/src/builder/parachain.rs:332-351 | whatever block the cell holds moves to `next_import`, overwriting what is there; an error with none |
| Builders.FudgeCollator.Reject | core/src/builder/parachain.rs:353-360 | the block waiting is dropped, nothing else |
| Builders.ParachainBuilder.Head | core/src/builder/parachain.rs:643-648 | the header of the latest block |
| Builders.ParachainBuilder.BuildBlock | core/src/builder/parachain.rs:547-641 | a child of the latest block, with the state its proof was recorded on, replaces the block in the cell; the canonical chain does not move and is filed beside it with its body |
| Builders.ParachainBuilder.ImportBlock | core/src/builder/parachain.rs:657-694 | the approved block is imported, listed and taken from the cell; with none the call succeeds and does nothing; an error leaves it in the cell; the canonical bodies grow by its own body |
| Builders.ParachainBuilder.WithMutState | core/src/builder/parachain.rs:765-777 | the tip is rewritten even while a block is on its way; a commit that fails, for want of usable code too, ends as the core builder's does; no commit changes a body |
| RelayBuilder.RelaychainBuilder.WithMutState | core/src/builder/relay_chain.rs:954-960 | panics with a block waiting; otherwise the core builder's commit, value returned, failing once the tip is off when there is no usable code; no commit changes a body |
| RelayBuilder.RelaychainBuilder.UpdateParaHead | core/src/builder/relay_chain.rs:535-539 | the stored head of one id, and nothing else, changes |
| RelayBuilder.RelaychainBuilder.OnboardPara | core/src/builder/relay_chain.rs:563-633 | storage and the registered collators change together, the latter only on success |
| RelayBuilder.RelaychainBuilder.BuildBlock | core/src/builder/relay_chain.rs:635-712 | panics with a block waiting; otherwise a child of the best block waits |
| RelayBuilder.RelaychainBuilder.CollectOne | core/src/builder/relay_chain.rs:752-774 | one collator's share: nothing without a block, no second collation for an id already pending |
| RelayBuilder.RelaychainBuilder.CollectCollations | core/src/builder/relay_chain.rs:750-777 | the loop collects in onboarding order and stops at the first failure, keeping what was collected |
| RelayBuilder.RelaychainBuilder.FindCollator | core/src/builder/relay_chain.rs:896-916 | the first collator registered for the id |
| RelayBuilder.RelaychainBuilder.ServesCaptured | core/src/builder/relay_chain.rs:782-833 | what the database serves at the captured parent, outside a commit and inside one: on an archive its state always, otherwise only while it is the tip, or genesis |
| RelayBuilder.RelaychainBuilder.EnactCommit | core/src/builder/relay_chain.rs:785-894 | both reads are reads of the database at the captured parent; the enactment closure's writes are kept even when its own value is an error |
| RelayBuilder.RelaychainBuilder.Judge | core/src/builder/relay_chain.rs:896-929 | the first collator of the id approves; an unknown id is an error and changes nothing |
| RelayBuilder.RelaychainBuilder.ForceEnactCollations | core/src/builder/relay_chain.rs:779-932 | the loop enacts every pending collation against the parent captured before it; an error keeps the pending list as it was |
| RelayBuilder.RelaychainBuilder.ImportBlock | core/src/builder/relay_chain.rs:714-748 | the waiting block is taken first, then imported, then the earlier collations are enacted, then new ones collected; the body built with the block is the one filed, and stays whatever the enactments rewrite |
| Companion.EvolveOne | core/src/builder/companion/src/expand/mod.rs:205-230 | one parachain's seven calls on the objects are one round on values |
| Companion.EvolveNth | core/src/builder/companion/src/expand/mod.rs:205-230 | and leave every other parachain's builder untouched |
| Companion.Evolve | core/src/builder/companion/src/expand/mod.rs:205-230 | `evolve` on any number of builders is the schedule on values, so from quiescence, when every import is answered `Imported`, it gains 2n and one blocks and stores every head |
| Companion.OnboardEach | core/src/builder/companion/src/expand/mod.rs:112-124 | the onboarding loop on the objects is the one on values |
| Companion.New | core/src/builder/companion/src/expand/mod.rs:104-133 | `new` on the objects is the one on values, so on unused builders, when its import is answered `Imported`, it establishes quiescence with every parachain hosted |
| WaitForBlock.StepKeepsGood | core/src/builder/relay_chain.rs:1309-1342 | every step of every thread keeps lock exclusion and, for each waiter, that an announced block is queued, about to be notified, or not there |
| WaitForBlock.FoundIsInChain | core/src/builder/relay_chain.rs:1267-1287 | `Ok` only for a block the chain holds, or held before a revert |
| WaitForBlock.ClosedIsReported | core/src/builder/relay_chain.rs:1276-1286 | a closed listener is reported only once the listeners have closed |
| WaitForBlock.NoLostWakeup | core/src/builder/relay_chain.rs:1267-1342 | in every interleaving a polling waiter whose block is in the chain has its notification queued, unless a commit put the block there |
| WaitForBlock.QueuedIsFound | core/src/builder/relay_chain.rs:1276-1286 | with its notification queued, polling skips exactly the other blocks before it and returns `Ok` |
| WaitForBlock.ClosedHearsNothing | core/src/builder/relay_chain.rs:1276-1286 | once the listeners have closed no waiter's queue grows, whatever runs |
| WaitForBlock.CommitWakesNobody | core/src/builder/core.rs:427-437 | from every start: a commit of the awaited block after the check lets the waiter time out on a block the chain holds |
| WaitForBlock.UncheckedLockLosesWakeup | core/src/builder/relay_chain.rs:1333-1341 | without the read lock an import between check and subscription is neither seen nor heard |
| WaitForBlock.WaitForBlock | core/src/builder/relay_chain.rs:1267-1287 | `Ok` exactly when the chain holds the block or its notification is the first event that decides, a timeout or a closed listener exactly when that is, other blocks being skipped; on a listener's stream it answers as the waiter of the interleaved model polling |
| Time.CurrentTimeIsMin | core/src/inherent/timestamp.rs:220-224 | the three saturations equal one: the smaller of the 64-bit maximum and start plus delta times ticks |
| Time.CurrentTimeIsMonotone | core/src/inherent/timestamp.rs:220-224 | more ticks never read earlier, saturated or not |
| Time.LagIsBounded | core/src/inherent/timestamp.rs:220-224 | before saturation the clock never runs ahead of the exact time, lags by at most `ticks` milliseconds, and not at all for a whole-millisecond delta |
| Time.DigestEnds | core/src/digest/aura.rs:64-91 | the slot is the one the inherent's time falls into; each error has its own cause |
| Time.SlotsOverBlocks | core/src/digest/aura.rs:83-89 | over n blocks the slot advances at least m a block when delta covers m slots, exactly m when it is m slots |
| Time.NewSlotIffDeltaCovers | core/src/digest/aura.rs:83-89 | two successive blocks never share a slot, for every start, exactly when delta is at least the slot duration |
| Time.AdvancesByIffMultiple | core/src/digest/aura.rs:83-89 | two successive blocks are m slots apart, for every start, exactly when delta is m slot durations |
| Instances.IdsNeverCollide | core/src/inherent/timestamp.rs:123-167 | in any interleaving of the two halves of creations with at most 2^64 of them, ids are distinct and no instance is overwritten or lost |
| Instances.WrapAroundOverwrites | core/src/inherent/timestamp.rs:123-124 | one creation more does overwrite the instance with id zero |
| Instances.TicksCountUpdates | core/src/inherent/timestamp.rs:194-218 | whatever else interleaves, an instance not reset keeps its start and delta and counts its own updates, all of them and no others |
| Instances.ResetRestarts | core/src/inherent/timestamp.rs:67-121 | after a reset the count and the time run from the new start: the one given whatever the clock says, else the clock's |
| Instances.CreationEnds | core/src/inherent/timestamp.rs:123-167 | finishing a creation fails exactly with neither a start nor a clock; otherwise the drawn id's instance starts at the given start, or the clock's without one, and no other is touched |
| Instances.CreationStarts | core/src/inherent/timestamp.rs:123-240 | after a creation, over any run, count and time run from that start |
| Instances.ResetEnds | core/src/inherent/timestamp.rs:67-121 | a reset fails with neither, or for an unknown id, changing nothing; otherwise that instance alone is new, from the given start or the clock's |
| Instances.UpdateEnds | core/src/inherent/timestamp.rs:194-218 | one tick more for an instance that is there, an error that changes nothing for one that is not |
| Instances.FreshSlotsAdvance | core/src/inherent/timestamp.rs:220-240 | between fresh snapshots the Aura slots are as far apart as the updates between them, at least m each, exactly m when delta is m slots |
| Instances.CurrTimeProviders.DrawId | core/src/inherent/timestamp.rs:123-124 | the counter's old value is handed out and it moves by one, wrapping at 2^64 |
| Instances.CurrTimeProviders.FinishCreate | core/src/inherent/timestamp.rs:126-167 | the instance is inserted under the drawn id, from the given start or else the clock's, with no ticks; with neither the id is lost |
| Instances.CurrTimeProviders.ForceNew | core/src/inherent/timestamp.rs:67-121 | only an existing instance is reset, to the given start or else the clock's; the clock is read before the id is looked up |
| Instances.CurrTimeProviders.UpdateTime | core/src/inherent/timestamp.rs:194-218 | one more tick for one instance, an error for an unknown one |
| Instances.SnapshotReports | core/src/inherent/timestamp.rs:169-192 | a snapshot taken between two runs reports the time of the updates before it whatever follows, a fresh one those and the updates since, never earlier |
| Instances.CurrTimeProviders.ProvideInherentData | core/src/inherent/timestamp.rs:229-240 | the snapshot's own time is provided and the registry's instance gets the tick |
| Genesis.InsertMerges | core/src/provider/state.rs:69-82 | an insertion succeeds exactly when every child trie present fits; otherwise the tries up to and including the first misfit are merged and the later ones are not |
| Genesis.InsertReads | core/src/provider/state.rs:61-85 | one insertion puts the source's values over what was there, the top even when it fails |
| Genesis.LastWriterWins | core/src/provider/state.rs:61-85 | after any successful insertions every top and child key reads as the last storage that held it wrote it, all others as before |
| Genesis.InitialCodeSurvives | core/src/provider/state.rs:151-162 | the initial code is the genesis code exactly when no later storage holds a different one last |
| Genesis.StateProvider.InsertStorage | core/src/provider/state.rs:61-85 | the in-place loop over child tries merges as described, for any iteration order |
| Genesis.StateProvider.EmptyDefault | core/src/provider/state.rs:151-162 | a fresh provider holds at most the code |
| Genesis.StateProvider.FromStorage | core/src/provider/state.rs:145-149 | a provider that holds exactly the given storage, none when inserting it fails |

## Left out

- `commit_storage_changes` (core/src/builder/core.rs:256-300) has no caller and reverts as many blocks as the tip's number; it is not part of the list-of-states claim.
- `with_mut_state_at` of every builder: private and marked as not supported.
- Wasm execution, block proposal, transaction pool, inherents other than time, trie proofs, SCALE encoding and the Polkadot pallets: parameters or the contracts listed above. The collation's messages, proof of validity and new validation code are not modelled, only the block and its head.
- The other `RelayChainInterface` methods: forwards to client or backend.
- Macro parsing, initiators, database configuration, Babe digest, `pool_state`, logging: no branching worth a claim.
- Poisoned mutexes, and closures that panic or never return (`StillRunning` marks an execution cut off early).
- Externalities.ExternalitiesProvider.ExecuteWithMut: models one key space of top-level storage; child tries, offchain changes and transaction index of the drained changes are not modelled.
- Database.Builder.StateVersion: a state without code and code without a version are one error.
- Database.Builder.LatestHeader: the two errors of reading the best block's header are not modelled; in a valid database the header is there.
- Database.Builder.BuildBlock: the errors of the proposer factory and of the proposal are parameters of the builders that call it.
- StandAlone.StandAloneBuilder.WithMutState: runs the closure before the commit starts and not after the revert; it sees the same state, and what it came to is looked at only when the commit gets that far. A closure that panics or never returns is not modelled.
- RelayBuilder.RelaychainBuilder.EnactCommit: the candidate records its relay parent's number and not its hash or validation data, so a stale parent shows in what can be read and not in the candidate.
- `imports` of the relay-chain builder lists headers only; the body of the block waiting is kept beside `next`.
- RelayBuilder.RelaychainBuilder.ImportBlock: the panics of the source are a status and end the call; what unwinding would do to a caller is not modelled.
- Instances.CurrTimeProviders.UpdateTime: ticks are unbounded; the overflow of the 128-bit counter after 2^128 updates is not modelled.
- WaitForBlock.NoLostWakeup: a timeout that fires while the notification is queued may still win, since the source's `select!` chooses among ready branches; the claim is about delivery.
