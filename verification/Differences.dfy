/** Where the code does something other than its callers may expect: the exact condition of each case and
    an input that meets it.
 */
module Differences {
  import opened Ledger
  import opened Externalities
  import opened ParasStorage
  import opened Protocol
  import opened Runs
  import opened Enacting
  import opened Approvals
  import opened Coverage
  import opened Schedule
  import opened Sessions

  // ---- Imports that end well without moving the chain ----

  /** A relay import that ends in `Ok` has moved the chain exactly when the client answered `Imported`;
      every other answer is swallowed, and the block is listed as imported all the same. */
  lemma OkImportGrowsIffImported(r: Relay, slots: seq<Slot>, env: ImportEnv)
    requires RelayChained(r) && Wired(r.registered, |slots|) && ImportRelay(r, slots, env).0.Ok?
    ensures r.next.Some? && ImportRelay(r, slots, env).1.imports == r.imports + [r.next.value]
    ensures |ImportRelay(r, slots, env).1.chain| == |r.chain| + (if env.answer.Imported? then 1 else 0)
  {
    var header := r.next.value;
    var imported := r.(next := None, chain := ImportBest(r.chain, header, env.answer), imports := r.imports + [header]);
    EnactFromKeeps(imported, slots, r.collations, 0, Tip(imported.chain), env);
  }

  /** From every ready world: any answer that is neither `Imported` nor an error is swallowed. */
  lemma AnswersAreSwallowed(w: World, build: BuildEnv, answer: Answer)
    requires Ready(w) && Serves(w.relay) && !build.fails && !answer.Imported? && !answer.ImportFailed?
    ensures var built := Step(w, DoBuildRelay(build.other, build.digest, build.fails)).1;
            var (status, after) := Step(built, DoImportRelay(ImportEnv(answer, [], [])));
            && status.Ok? && built.relay.next.Some?
            && after.relay.imports == w.relay.imports + [built.relay.next.value]
            && after.relay.chain == w.relay.chain
  {
    var built := Step(w, DoBuildRelay(build.other, build.digest, build.fails)).1;
    var env := ImportEnv(answer, [], []);
    var header := built.relay.next.value;
    var imported := built.relay.(next := None, imports := built.relay.imports + [header]);
    NothingToEnact(imported, w.slots, Tip(imported.chain), env);
    forall k | 0 <= k < |w.relay.registered| ensures Provable(Tip(w.relay.chain).root, w.relay.registered[k],
        w.slots) {}
    CollectSucceedsIffProvable(imported, w.slots, 0, header, env.(answer := Answer.Imported));
    SameCollects(imported, w.slots, 0, header, env, env.(answer := Answer.Imported));
  }

  lemma {:induction false} SameCollects(r: Relay, slots: seq<Slot>, j: nat, generationParent: RelayHeader,
                                        env: ImportEnv, other: ImportEnv)
    requires |r.chain| > 0 && Wired(r.registered, |slots|) && j <= |r.registered| && env.collect == other.collect
    ensures CollectFrom(r, slots, j, generationParent, env) == CollectFrom(r, slots, j, generationParent, other)
    decreases |r.registered| - j
  {
    if j < |r.registered| {
      var (status, r1) := CollectOne(r, slots, r.registered[j], generationParent, CollectEnvAt(env, j));
      SameCollects(r1, slots, j + 1, generationParent, env, other);
    }
  }

  // ---- Collecting without storing the head first ----

  /** Collecting a fresh block without storing the head first, as `evolve` does not. */
  ghost function CollectStored(w: World, i: nat, build: BuildEnv, para: ParaEnv, env: ImportEnv): Status
    requires Wellformed(w) && i < |w.paras|
  {
    var w1 := Step(w, DoBuildRelay(build.other, build.digest, build.fails)).1;
    var w2 := Step(w1, DoBuildPara(i, para.post, para.digest, para.body, para.fails, para.leaf)).1;
    Step(w2, DoImportRelay(env)).0
  }

  /** Without storing the head first the import succeeds exactly when the head the relay still has
      carries the state root the parachain's tip has now: a rewrite of that tip breaks it. */
  lemma CollectsIffStoredRootIsCurrent(w: World, i: nat, build: BuildEnv, para: ParaEnv, env: ImportEnv)
    requires Ready(w) && i < |w.paras| && Hosts(Tip(w.relay.chain).root, w.relay.registered)
    requires !build.fails && !para.fails && !para.leaf.ImportFailed? && HealthyImport(env)
    ensures w.paras[i].id in Tip(w.relay.chain).root.heads
    ensures CollectStored(w, i, build, para, env).Ok? <==>
            Tip(w.relay.chain).root.heads[w.paras[i].id].root == Tip(w.paras[i].chain).root
  {
    hide CollectFrom;
    var header := NextHeader(w.relay.chain, build);
    var block := BuiltBlock(w.paras[i], para);
    var slots := w.slots[i := w.slots[i].(nextBlock := Some(block))];
    var imported := w.relay.(next := None, chain := w.relay.chain + [header], imports := w.relay.imports + [header]);
    assert Tip(imported.chain) == header;
    assert w.relay.registered[i] == Entry(w.paras[i].id, i);
    CollectSucceedsIffProvable(imported, slots, 0, header, env);
    forall k | 0 <= k < |w.relay.registered| && k != i ensures Provable(header.root, w.relay.registered[k], slots) {}
    assert Provable(header.root, w.relay.registered[i], slots) <==>
           Tip(w.relay.chain).root.heads[w.paras[i].id].root == Tip(w.paras[i].chain).root;
    assert CollectStored(w, i, build, para, env) == CollectFrom(imported, slots, 0, header, env).0;
  }


  // ---- A parachain rebuilt between collection and enactment ----

  ghost function Rebuilt(w: World, i: nat, env: ParaEnv): World
    requires Wellformed(w) && i < |w.paras|
  {
    Step(w, DoBuildPara(i, env.post, env.digest, env.body, env.fails, env.leaf)).1
  }

  ghost function RebuildActions(i: nat, env: ParaEnv, build: BuildEnv): seq<Action> {
    [DoBuildPara(i, env.post, env.digest, env.body, env.fails, env.leaf),
        DoBuildRelay(build.other, build.digest, build.fails)]
  }

  lemma CollectingIsCollected(w: World, i: nat, block: Built, header: RelayHeader)
    requires Collecting(w, i, block, header) && block.serial < w.paras[i].built
    ensures Collected(w)
  {
    SlotForEntry(w.relay.registered, i);
    assert w.relay.registered[i] == Entry(w.paras[i].id, i);
  }

  /** A rebuild between the two relay imports of a healthy round makes the judge approve the new block
      for the head of the old one. */
  ghost predicate Diverges(w: World, i: nat, round: Round, again: ParaEnv, block: Built)
    requires Wellformed(w) && i < |w.paras|
  {
    var actions := RebuildActions(i, again, round.secondBuild);
    && AllApply(w, actions) && Rebuilds(w, actions, i)
    && var (status, after) := Step(Run(w, actions), DoImportRelay(round.secondImport));
       && status.Ok? && |after.relay.enacted| == |w.relay.enacted| + 1
       && var e := after.relay.enacted[|w.relay.enacted|];
          e.collected == block && e.approved.Some? && e.approved.value.serial == w.paras[i].built
  }

  lemma CollectingDiverges(w: World, i: nat, round: Round, again: ParaEnv, block: Built, header: RelayHeader)
    requires Collecting(w, i, block, header) && Serves(w.relay) && Healthy(round, w.relay.node)
    requires !again.fails && !again.leaf.ImportFailed?
    ensures Diverges(w, i, round, again, block)
  {
    hide ImportRelay, Rebuilds;
    var w2 := Rebuilt(w, i, again);
    var r := w.relay.(next := Some(NextHeader(w.relay.chain, round.secondBuild)));
    var c := Collation(w.paras[i].id, block, header);
    TwoSteps(w, i, again, round.secondBuild);
    SecondImportSucceeds(r, w2.slots, round.secondImport, i, c);
    SecondImport(r, w2.slots, round.secondImport, i, c);
    ImportStep(World(r, w2.slots, w2.paras), round.secondImport);
  }

  lemma RebuiltBlockIsApproved(w: World, i: nat, round: Round, again: ParaEnv)
    requires Ready(w) && Serves(w.relay) && i < |w.paras| && Healthy(round, w.relay.node)
    requires !again.fails && !again.leaf.ImportFailed?
    ensures var (status, collected) := CollectPhase(w, i, round); var block := BuiltBlock(w.paras[i], round.paraBuild);
            && status.Ok? && Collected(collected) && collected.paras[i].built == block.serial + 1
            && Diverges(collected, i, round, again, block)
  {
    hide CollectPhase, Diverges, Collected;
    CollectPhaseSucceeds(w, i, round);
    CollectPhaseWorld(w, i, round);
    CollectedIsCollecting(w, i, round);
    AfterCollectServes(w, i, round);
    var block, header := BuiltBlock(w.paras[i], round.paraBuild),
        NextHeader(HeadStored(w.relay.chain, w.paras[i]), round.firstBuild);
    var collected := AfterCollect(w, i, round);
    CollectingIsCollected(collected, i, block, header);
    CollectingDiverges(collected, i, round, again, block, header);
  }

  lemma TwoSteps(w: World, i: nat, env: ParaEnv, build: BuildEnv)
    requires Wellformed(w) && w.relay.next.None? && i < |w.paras| && !build.fails && !env.fails
             && !env.leaf.ImportFailed?
    ensures var actions := RebuildActions(i, env, build);
            && AllApply(w, actions) && Rebuilds(w, actions, i)
            && var w2 := Rebuilt(w, i, env);
               Run(w, actions) == w2.(relay := w.relay.(next := Some(NextHeader(w.relay.chain, build))))
  {
    var actions := RebuildActions(i, env, build);
    var w2 := Rebuilt(w, i, env);
    assert actions[1..] == [actions[1]] && actions[1..][1..] == [];
    assert RebuildsNow(w, actions[0], i);
    assert Run(w2, [actions[1]]) == Step(w2, actions[1]).1;
    assert Run(w, actions) == Run(w2, actions[1..]);
  }

  // ---- A parachain's tip rewritten while its block is on its way ----

  /** Any number of successful commits on the tip. */
  ghost function Committed(p: Para, posts: seq<Kv>): (after: Para)
    requires |p.chain| > 0
    ensures |after.chain| == |p.chain| && after.imports == p.imports
    decreases |posts|
  {
    if posts == [] then p
    else MutatePara(Committed(p, posts[..|posts| - 1]), posts[|posts| - 1], NoFault).1
  }

  lemma {:induction false} CommittedTip(p: Para, posts: seq<Kv>)
    requires |p.chain| > 0
    ensures Tip(Committed(p, posts).chain)
            == Tip(p.chain).(root := if posts == [] then Tip(p.chain).root else posts[|posts| - 1])
    decreases |posts|
  {
    if posts != [] {
      CommittedTip(p, posts[..|posts| - 1]);
    }
  }

  /** A parachain builder does not guard its tip while a block is on its way.  After any commits and on
      any answer: the approved block is listed and taken from the cell unless the import errors, and the
      chain grows exactly when the client answers `Imported` and the last commit left the state the block
      was built on. */
  lemma RewrittenTipOrphansBlock(p: Para, slot: Slot, posts: seq<Kv>, answer: Answer)
    requires |p.chain| > 0 && slot.nextImport.Some? && IsChildOfTip(slot.nextImport.value.header, p.chain)
    ensures var block := slot.nextImport.value;
            var (status, after, cell) := ImportPara(Committed(p, posts), slot, answer);
            && (status.Ok? <==> !answer.ImportFailed?)
            && after.imports == (if answer.ImportFailed? then p.imports else p.imports + [block])
            && cell == (if answer.ImportFailed? then slot else slot.(nextImport := None))
            && (|after.chain| == |p.chain| + 1 <==>
                  answer.Imported? && (posts == [] || posts[|posts| - 1] == Tip(p.chain).root))
            && (|after.chain| == |p.chain| + 1 || after.chain == Committed(p, posts).chain)
  {
    CommittedTip(p, posts);
  }

  // ---- A round repeated after its relay import failed ----

  lemma {:induction false} PendingOfTwo(registered: seq<Entry>, slots: seq<Slot>, generationParent: RelayHeader, n: nat,
                                        i: nat, j: nat)
    requires n <= |registered| && Wired(registered, |slots|) && i < |registered| && j < |registered| && i != j
    requires slots[registered[i].slot].nextBlock.Some? && slots[registered[j].slot].nextBlock.Some?
    requires forall k :: 0 <= k < |registered| && k != i && k != j ==> slots[registered[k].slot].nextBlock.None?
    ensures |Pending(registered, slots, generationParent, n)| == (if i < n then 1 else 0) + (if j < n then 1 else 0)
  {
    if n > 0 {
      PendingOfTwo(registered, slots, generationParent, n - 1, i, j);
    }
  }

  ghost function AfterFailedImport(w: World, j: nat, bad: Round): (after: World)
    requires Wellformed(w) && j < |w.paras|
    ensures Wellformed(after) && |after.paras| == |w.paras|
  {
    var b := BeforeFirstImport(w, j, bad);
    b.(relay := b.relay.(next := None))
  }

  lemma FailedRound(w: World, j: nat, bad: Round)
    requires Wellformed(w) && w.relay.next.None? && Coded(w.relay) && j < |w.paras|
    requires Builds(bad) && bad.firstImport.answer.ImportFailed?
    ensures CollectPhase(w, j, bad) == (CoreBuilderFailed, AfterFailedImport(w, j, bad))
  {
    hide CollectPhase;
    CollectPhaseReduces(w, j, bad);
  }

  lemma TwoHeadsStored(chain: seq<RelayHeader>, p: Para, q: Para)
    requires Linked(chain) && |p.chain| > 0 && |q.chain| > 0 && p.id != q.id
    ensures var after := HeadStored(HeadStored(chain, p), q); var before, now := Tip(chain).root, Tip(after).root;
            && Linked(after) && |after| == |chain|
            && now.heads == before.heads[p.id := Tip(p.chain)][q.id := Tip(q.chain)] && now.other == before.other
            && VersionRoot(HeadStored(chain, p)).other == VersionRoot(chain).other
  {
    var state := Tip(chain).root;
    var one := HeadStored(chain, p);
    CommitKeepsLinks(chain, state.(heads := state.heads[p.id := Tip(p.chain)]), NoFault);
    CommitKeepsLinks(one, Tip(one).root.(heads := Tip(one).root.heads[q.id := Tip(q.chain)]), NoFault);
  }

  ghost function TwoBlocks(slots: seq<Slot>, j: nat, first: Built, i: nat, second: Built): seq<Slot>
    requires i < |slots| && j < |slots| && i != j
  {
    slots[j := slots[j].(nextBlock := Some(first))][i := slots[i].(nextBlock := Some(second))]
  }

  /** The relay chain and the cells just before the second round's first import. */
  ghost function SecondTry(w: World, j: nat, bad: Round, i: nat, good: Round): (at: (Relay, seq<Slot>))
    requires Wellformed(w) && i < |w.paras| && j < |w.paras| && i != j
    ensures |at.0.chain| > 0 && Wired(at.0.registered, |at.1|)
  {
    var chain := HeadStored(HeadStored(w.relay.chain, w.paras[j]), w.paras[i]);
    (w.relay.(chain := chain, next := Some(NextHeader(chain, good.firstBuild))),
     TwoBlocks(w.slots, j, BuiltBlock(w.paras[j], bad.paraBuild), i, BuiltBlock(w.paras[i], good.paraBuild)))
  }

  lemma BeforeSecondTry(w: World, j: nat, bad: Round, i: nat, good: Round)
    requires Wellformed(w) && i < |w.paras| && j < |w.paras| && i != j
    ensures var w1 := AfterFailedImport(w, j, bad); var before := BeforeFirstImport(w1, i, good);
            && w1.relay == w.relay.(chain := HeadStored(w.relay.chain, w.paras[j]), next := None)
            && before.relay == SecondTry(w, j, bad, i, good).0 && before.slots == SecondTry(w, j, bad, i, good).1
  {
    hide HeadStored, NextHeader, BuiltBlock;
  }

  lemma BothProvable(w: World, j: nat, bad: Round, i: nat, good: Round, state: RelayStorage)
    requires Ready(w) && Hosts(Tip(w.relay.chain).root, w.relay.registered) && i < |w.paras| && j < |w.paras| && i != j
    requires var p, q := w.paras[j], w.paras[i];
             state.heads == Tip(w.relay.chain).root.heads[p.id := Tip(p.chain)][q.id := Tip(q.chain)]
    ensures var slots := TwoBlocks(w.slots, j, BuiltBlock(w.paras[j], bad.paraBuild), i,
            BuiltBlock(w.paras[i], good.paraBuild));
            forall k :: 0 <= k < |w.relay.registered| ==> Provable(state, w.relay.registered[k], slots)
  {
    hide Chained;
    assert w.relay.registered[i] == Entry(w.paras[i].id, i) && w.relay.registered[j] == Entry(w.paras[j].id, j);
    forall k | 0 <= k < |w.relay.registered| && k != i && k != j
      ensures w.relay.registered[k].id != w.paras[i].id && w.relay.registered[k].id != w.paras[j].id
              && w.relay.registered[k].slot == k
    {
      assert w.relay.registered[k] == Entry(w.paras[k].id, k);
    }
  }

  lemma NothingToEnactOnImport(r: Relay, slots: seq<Slot>, env: ImportEnv)
    requires |r.chain| > 0 && Wired(r.registered, |slots|) && r.collations == [] && r.next.Some?
    ensures ImportRelay(r, slots, env).2 == slots
  {
  }

  lemma SecondTryReduces(w: World, j: nat, bad: Round, i: nat, good: Round)
    requires Wellformed(w) && w.relay.next.None? && Coded(w.relay) && Linked(w.relay.chain)
    requires i < |w.paras| && j < |w.paras| && i != j && w.paras[i].id != w.paras[j].id
    requires Builds(bad) && bad.firstImport.answer.ImportFailed? && Builds(good)
    ensures var (failed, w1) := CollectPhase(w, j, bad); var (status, w2) := CollectPhase(w1, i, good);
            var (r, slots) := SecondTry(w, j, bad, i, good); var tried := ImportRelay(r, slots, good.firstImport);
            failed == CoreBuilderFailed && status == tried.0 && w2.relay == tried.1
  {
    hide Step, ImportRelay, CollectPhase, BeforeFirstImport, AfterFailedImport, SecondTry, HeadStored;
    FailedRound(w, j, bad);
    TwoHeadsStored(w.relay.chain, w.paras[j], w.paras[i]);
    var w1 := AfterFailedImport(w, j, bad);
    BeforeSecondTry(w, j, bad, i, good);
    CollectPhaseReduces(w1, i, good);
    ImportStep(BeforeFirstImport(w1, i, good), good.firstImport);
  }

  lemma ReadyToRetry(w: World, j: nat, bad: Round, i: nat, good: Round)
    requires Ready(w) && Serves(w.relay) && i < |w.paras| && j < |w.paras| && i != j
    ensures w.paras[i].id != w.paras[j].id
    ensures var (r, slots) := SecondTry(w, j, bad, i, good);
            && RelayChained(r) && DistinctIds(r.registered) && |r.registered| == |w.paras|
            && r.collations == [] && r.next.Some?
            && (forall k :: 0 <= k < |r.registered| ==> Provable(Tip(r.chain).root, r.registered[k], slots))
            && slots[r.registered[i].slot].nextBlock.Some? && slots[r.registered[j].slot].nextBlock.Some?
            && (forall k :: 0 <= k < |r.registered| && k != i && k != j ==> slots[r.registered[k].slot].nextBlock.None?)
  {
    hide HeadStored, Provable, Chained;
    assert w.relay.registered[i] == Entry(w.paras[i].id, i) && w.relay.registered[j] == Entry(w.paras[j].id, j);
    ReadyIsLinked(w);
    var (r, _) := SecondTry(w, j, bad, i, good);
    TwoHeadsStored(w.relay.chain, w.paras[j], w.paras[i]);
    BothProvable(w, j, bad, i, good, Tip(r.chain).root);
  }

  lemma ReadyIsLinked(w: World)
    requires Ready(w)
    ensures Wellformed(w) && Linked(w.relay.chain)
  {
  }

  /** The import of parachain `j`'s round fails with the block already in its cell.  The round of another
      parachain `i` then collects both blocks: two collations are pending at the next import. */
  lemma FailedImportLeavesTwoPending(w: World, j: nat, bad: Round, i: nat, good: Round)
    requires Ready(w) && Serves(w.relay) && i < |w.paras| && j < |w.paras| && i != j
    requires Builds(bad) && bad.firstImport.answer.ImportFailed? && Healthy(good, w.relay.node)
    ensures var (failed, w1) := CollectPhase(w, j, bad); var (status, w2) := CollectPhase(w1, i, good);
            failed == CoreBuilderFailed && status.Ok? && |w2.relay.collations| == 2
  {
    hide ImportRelay, CollectPhase, SecondTry, Provable, Chained, Aligned, Hosts, HealthyImport;
    ReadyIsLinked(w);
    ReadyToRetry(w, j, bad, i, good);
    SecondTryReduces(w, j, bad, i, good);
    var (r, slots) := SecondTry(w, j, bad, i, good);
    CollectsBoth(r, slots, good.firstImport, i, j);
  }

  lemma CollectsBoth(r: Relay, slots: seq<Slot>, env: ImportEnv, i: nat, j: nat)
    requires RelayChained(r) && Wired(r.registered, |slots|) && DistinctIds(r.registered)
    requires i < |r.registered| && j < |r.registered| && i != j && r.collations == [] && r.next.Some?
             && HealthyImport(env)
    requires forall k :: 0 <= k < |r.registered| ==> Provable(Tip(r.chain).root, r.registered[k], slots)
    requires slots[r.registered[i].slot].nextBlock.Some? && slots[r.registered[j].slot].nextBlock.Some?
    requires forall k :: 0 <= k < |r.registered| && k != i && k != j ==> slots[r.registered[k].slot].nextBlock.None?
    ensures ImportRelay(r, slots, env).0.Ok? && |ImportRelay(r, slots, env).1.collations| == 2
  {
    hide ImportRelay, Provable;
    FirstImportSucceeds(r, slots, env);
    ImportLeavesPending(r, slots, env);
    NothingToEnactOnImport(r, slots, env);
    PendingOfTwo(r.registered, slots, r.next.value, |r.registered|, i, j);
  }
}
