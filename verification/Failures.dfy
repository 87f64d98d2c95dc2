/** What a failing round of `evolve` leaves for the next one, and on which backends `evolve` can succeed.
 */
module Failures {
  import opened Ledger
  import opened Externalities
  import opened ParasStorage
  import opened Protocol
  import opened Runs
  import opened Enacting
  import opened Schedule
  import opened Sessions
  import opened OnePending

  /** The head update and the first relay build succeed. */
  ghost predicate Starts(w: World, round: Round)
    requires |w.relay.chain| > 0
  {
    round.headFault.NoFault? && Coded(w.relay) && !round.firstBuild.fails
  }

  ghost predicate ParaBuilds(round: Round) {
    !round.paraBuild.fails && !round.paraBuild.leaf.ImportFailed?
  }

  // ---- A relay block left waiting ----

  lemma EnactOneNeverPanics(r: Relay, slots: seq<Slot>, c: Collation, parent: RelayHeader, env: EnactEnv)
    requires |r.chain| > 0 && Wired(r.registered, |slots|) && r.next.None?
    ensures !EnactOne(r, slots, c, parent, env).0.Panicked?
  {
  }

  lemma {:induction false} EnactNeverPanics(r: Relay, slots: seq<Slot>, todo: seq<Collation>, k: nat,
                                            parent: RelayHeader, env: ImportEnv)
    requires |r.chain| > 0 && Wired(r.registered, |slots|) && k <= |todo| && r.next.None?
    ensures !EnactFrom(r, slots, todo, k, parent, env).0.Panicked?
    decreases |todo| - k
  {
    hide EnactOne;
    if k < |todo| {
      EnactOneNeverPanics(r, slots, todo[k], parent, EnactEnvAt(env, k));
      var (status, r1, slots1) := EnactOne(r, slots, todo[k], parent, EnactEnvAt(env, k));
      if status.Ok? {
        EnactNeverPanics(r1, slots1, todo, k + 1, parent, env);
      }
    }
  }

  lemma {:induction false} CollectNeverPanics(r: Relay, slots: seq<Slot>, j: nat, generationParent: RelayHeader,
                                              env: ImportEnv)
    requires |r.chain| > 0 && Wired(r.registered, |slots|) && j <= |r.registered|
    ensures !CollectFrom(r, slots, j, generationParent, env).0.Panicked?
    decreases |r.registered| - j
  {
    if j < |r.registered| {
      var (status, r1) := CollectOne(r, slots, r.registered[j], generationParent, CollectEnvAt(env, j));
      if status.Ok? {
        CollectNeverPanics(r1, slots, j + 1, generationParent, env);
      }
    }
  }

  lemma ImportNeverPanics(r: Relay, slots: seq<Slot>, env: ImportEnv)
    requires |r.chain| > 0 && Wired(r.registered, |slots|)
    ensures !ImportRelay(r, slots, env).0.Panicked?
  {
    hide EnactFrom, CollectFrom;
    if r.next.Some? && !env.answer.ImportFailed? {
      var header := r.next.value;
      var imported := r.(next := None, chain := ImportBest(r.chain, header, env.answer),
          imports := r.imports + [header]);
      EnactNeverPanics(imported, slots, r.collations, 0, Tip(imported.chain), env);
      var (_, enacted, slots') := ForceEnact(imported, slots, env);
      CollectNeverPanics(enacted, slots', 0, header, env);
    }
  }

  /** From any world at all a round panics exactly when a relay block is waiting before it; it then changes
      nothing, so every later round panics too. */
  lemma PanicsIffWaiting(w: World, i: nat, round: Round)
    requires Wellformed(w) && i < |w.paras|
    ensures EvolvePara(w, i, round).0.Panicked? <==> w.relay.next.Some?
    ensures w.relay.next.Some? ==> EvolvePara(w, i, round) == (Panicked, w)
  {
    hide ImportRelay, CollectPhase, EnactPhase;
    CollectPanicsIff(w, i, round);
    var (status, collected) := CollectPhase(w, i, round);
    if status.Ok? {
      EnactNeverPanicsAfter(collected, i, round);
    }
  }

  lemma CollectPanicsIff(w: World, i: nat, round: Round)
    requires Wellformed(w) && i < |w.paras|
    ensures CollectPhase(w, i, round).0.Panicked? <==> w.relay.next.Some?
    ensures w.relay.next.Some? ==> CollectPhase(w, i, round) == (Panicked, w)
    ensures CollectPhase(w, i, round).0.Ok? ==> CollectPhase(w, i, round).1.relay.next.None?
  {
    hide ImportRelay;
    if w.relay.next.None? && Starts(w, round) && ParaBuilds(round) {
      CollectPhaseReduces(w, i, round);
      var b := BeforeFirstImport(w, i, round);
      ImportNeverPanics(b.relay, b.slots, round.firstImport);
    }
  }

  lemma EnactNeverPanicsAfter(w: World, i: nat, round: Round)
    requires Wellformed(w) && i < |w.paras| && w.relay.next.None?
    ensures !EnactPhase(w, i, round).0.Panicked?
  {
    hide ImportRelay;
    var build := round.secondBuild;
    var w5 := Step(w, DoBuildRelay(build.other, build.digest, build.fails)).1;
    ImportNeverPanics(w5.relay, w5.slots, round.secondImport);
  }

  // ---- What a round leaves ----

  /** Nothing is pending, or one collation of this parachain with the block its cell holds. */
  ghost predicate OnlyOf(collations: seq<Collation>, id: Id, cell: Option<Built>) {
    collations == [] || (|collations| == 1 && collations[0].id == id && cell == Some(collations[0].block))
  }

  /** The block of parachain `i` is still in its cell, collected or not, and nothing else is under way. */
  ghost predicate Leftover(w: World, i: nat, block: Built) {
    && Wellformed(w) && Aligned(w) && i < |w.paras| && w.relay.next.None?
    && w.slots[i].nextBlock == Some(block) && block.serial < w.paras[i].built
    && (forall j :: 0 <= j < |w.slots| && j != i ==> w.slots[j].nextBlock.None?)
    && OnlyOf(w.relay.collations, w.paras[i].id, Some(block))
  }

  /** Collecting with at most one cell set, finished or not. */
  lemma {:induction false} CollectAtMostOne(r: Relay, slots: seq<Slot>, j: nat, generationParent: RelayHeader,
                                            env: ImportEnv, i: nat)
    requires |r.chain| > 0 && j <= |r.registered| && OnlySlot(r, slots, i)
    requires OnlyOf(r.collations, r.registered[i].id, slots[r.registered[i].slot].nextBlock)
    ensures OnlyOf(CollectFrom(r, slots, j, generationParent, env).1.collations, r.registered[i].id,
                   slots[r.registered[i].slot].nextBlock)
    decreases |r.registered| - j
  {
    if j < |r.registered| {
      var (status, r1) := CollectOne(r, slots, r.registered[j], generationParent, CollectEnvAt(env, j));
      assert r.collations != [] ==> r.collations[0] in r.collations;
      if status.Ok? {
        CollectAtMostOne(r1, slots, j + 1, generationParent, env, i);
      }
    }
  }

  /** The first import of a round, however it ends. */
  lemma ImportWithNothingPending(r: Relay, slots: seq<Slot>, env: ImportEnv, i: nat)
    requires |r.chain| > 0 && OnlySlot(r, slots, i) && r.collations == []
    ensures var (_, after, slots') := ImportRelay(r, slots, env);
            && slots' == slots && after.enacted == r.enacted
            && OnlyOf(after.collations, r.registered[i].id, slots[r.registered[i].slot].nextBlock)
  {
    hide CollectFrom;
    if r.next.Some? && !env.answer.ImportFailed? {
      var header := r.next.value;
      var imported := r.(next := None, chain := ImportBest(r.chain, header, env.answer),
          imports := r.imports + [header]);
      NothingToEnact(imported, slots, Tip(imported.chain), env);
      CollectAtMostOne(imported, slots, 0, header, env, i);
    }
  }

  /** The second import of a round, however it ends: the one collation enacted, its own block approved and
      nothing pending, or nothing but the relay chain touched. */
  lemma ImportWithOnePending(r: Relay, slots: seq<Slot>, env: ImportEnv, i: nat)
    requires |r.chain| > 0 && OnlySlot(r, slots, i) && |r.collations| == 1 && r.collations[0].id == r.registered[i].id
    requires slots[r.registered[i].slot].nextBlock.Some?
    ensures var (_, after, slots') := ImportRelay(r, slots, env); var k := r.registered[i].slot;
            if |after.enacted| > |r.enacted| then
              && slots' == slots[k := Approve(slots[k]).1] && after.collations == []
              && |after.enacted| == |r.enacted| + 1 && r.enacted <= after.enacted
              && var e := after.enacted[|r.enacted|];
                 && e.collected == r.collations[0].block && e.candidate.paraHead == e.collected.header
                 && e.approved == slots[k].nextBlock
            else
              slots' == slots && after.enacted == r.enacted && after.collations == r.collations
  {
    hide CollectFrom, EnactOne;
    if r.next.Some? && !env.answer.ImportFailed? {
      var header, c := r.next.value, r.collations[0];
      var imported := r.(next := None, chain := ImportBest(r.chain, header, env.answer),
          imports := r.imports + [header]);
      SlotForEntry(r.registered, i);
      assert r.collations == [c];
      EnactOneWhole(imported, slots, c, Tip(imported.chain), EnactEnvAt(env, 0));
      var (status, one, slots1) := EnactOne(imported, slots, c, Tip(imported.chain), EnactEnvAt(env, 0));
      if status.Ok? {
        assert EnactFrom(imported, slots, [c], 0, Tip(imported.chain), env) == (Ok, one.(collations := []), slots1);
        CollectAtMostOne(one.(collations := []), slots1, 0, header, env, i);
      }
    }
  }

  /** An enactment whose collator has a block in its cell succeeds or records and approves nothing. */
  lemma EnactOneWhole(r: Relay, slots: seq<Slot>, c: Collation, parent: RelayHeader, env: EnactEnv)
    requires |r.chain| > 0 && Wired(r.registered, |slots|)
    requires var k := SlotFor(r.registered, c.id); k.Some? && slots[k.value].nextBlock.Some?
    ensures var (status, after, slots') := EnactOne(r, slots, c, parent, env);
            if status.Ok? then
              var k := SlotFor(r.registered, c.id).value;
              && slots' == slots[k := Approve(slots[k]).1] && after.registered == r.registered
              && |after.enacted| == |r.enacted| + 1 && r.enacted <= after.enacted
              && var e := after.enacted[|r.enacted|];
                 e.collected == c.block && e.candidate.paraHead == c.block.header && e.approved == slots[k].nextBlock
            else slots' == slots && after.enacted == r.enacted
  {
    if EnactOne(r, slots, c, parent, env).0.Ok? {
      EnactOneOk(r, slots, c, parent, env);
    }
  }

  // ---- Every way a round can end ----

  /** Nothing has been enacted and nothing is under way. */
  lemma NotStarted(w: World, i: nat, round: Round)
    requires Idle(w) && i < |w.paras| && !Starts(w, round)
    ensures var (status, after) := EvolvePara(w, i, round);
            !status.Ok? && Idle(after) && after.relay.enacted == w.relay.enacted && after.relay.next.None?
  {
  }

  lemma ParaBuildFailed(w: World, i: nat, round: Round)
    requires Idle(w) && i < |w.paras| && Starts(w, round) && !ParaBuilds(round)
    ensures var (status, after) := EvolvePara(w, i, round);
            status == CoreBuilderFailed && after.relay.next.Some? && after.relay.enacted == w.relay.enacted
  {
  }

  /** Everything up to the first import. */
  lemma FirstImportOf(w: World, i: nat, round: Round)
    requires Wellformed(w) && Aligned(w) && w.relay.next.None? && i < |w.paras|
    requires forall j :: 0 <= j < |w.slots| && j != i ==> w.slots[j].nextBlock.None?
    requires Starts(w, round) && ParaBuilds(round)
    ensures var b := BeforeFirstImport(w, i, round);
            && OnlySlot(b.relay, b.slots, i) && Aligned(b) && b.relay.registered[i] == Entry(w.paras[i].id, i)
            && b.relay.enacted == w.relay.enacted && b.relay.collations == w.relay.collations && b.relay.next.Some?
            && b.slots[i].nextBlock == Some(BuiltBlock(w.paras[i], round.paraBuild))
            && (forall j :: 0 <= j < |b.slots| && j != i ==> b.slots[j].nextBlock.None?)
            && b.paras[i].built == w.paras[i].built + 1
            && CollectPhase(w, i, round) == Step(b, DoImportRelay(round.firstImport))
  {
    CollectPhaseReduces(w, i, round);
    assert w.relay.registered[i] == Entry(w.paras[i].id, i);
    forall j | 0 <= j < |w.relay.registered| && j != i ensures w.relay.registered[j].slot == j {
      assert w.relay.registered[j] == Entry(w.paras[j].id, j);
    }
  }

  /** Whether collecting succeeds or not, the block is in its cell and nothing else is under way. */
  lemma CollectLeaves(w: World, i: nat, round: Round)
    requires Idle(w) && i < |w.paras| && Starts(w, round) && ParaBuilds(round)
    ensures var after := CollectPhase(w, i, round).1;
            && Leftover(after, i, BuiltBlock(w.paras[i], round.paraBuild)) && after.relay.enacted == w.relay.enacted
            && after.paras[i].id == w.paras[i].id && |after.paras| == |w.paras|
  {
    hide ImportRelay, CollectPhase, BeforeFirstImport, OnlySlot;
    FirstImportOf(w, i, round);
    var b := BeforeFirstImport(w, i, round);
    BeforeKeepsParas(w, i, round);
    ImportWithNothingPending(b.relay, b.slots, round.firstImport, i);
    ImportStep(b, round.firstImport);
  }

  lemma BeforeKeepsParas(w: World, i: nat, round: Round)
    requires Wellformed(w) && i < |w.paras|
    ensures var b := BeforeFirstImport(w, i, round); |b.paras| == |w.paras| && b.paras[i].id == w.paras[i].id
  {
  }

  /** The second half of a round from a collected block, however it ends. */
  lemma EnactLeaves(w: World, i: nat, block: Built, round: Round)
    requires Leftover(w, i, block) && |w.relay.collations| == 1
    ensures var after := EnactPhase(w, i, round).1;
            if |after.relay.enacted| > |w.relay.enacted| then Idle(after) && EnactsExactly(w, after, 1)
            else Leftover(after, i, block) && after.relay.enacted == w.relay.enacted
  {
    hide ImportRelay;
    var (status, w5) := Step(w, DoBuildRelay(round.secondBuild.other, round.secondBuild.digest,
        round.secondBuild.fails));
    if status.Ok? {
      assert w.relay.registered[i] == Entry(w.paras[i].id, i);
      ImportWithOnePending(w5.relay, w5.slots, round.secondImport, i);
    }
  }

  /** From an idle world a round ends in one of three states.  A relay block is left waiting exactly when
      the parachain's build fails after the relay block was built, and every later round then panics.  The
      world is idle again, so the next `evolve` starts afresh, exactly when the round ended before that
      build or has enacted its block, approving it.  Otherwise the block is left in its cell, where the next
      round of any parachain collects it. */
  lemma RoundLeaves(w: World, i: nat, round: Round)
    requires Idle(w) && i < |w.paras|
    ensures var after := EvolvePara(w, i, round).1;
            && (after.relay.next.Some? <==> Starts(w, round) && !ParaBuilds(round))
            && (Idle(after) <==> !Starts(w, round) || |after.relay.enacted| > |w.relay.enacted|)
            && (|after.relay.enacted| > |w.relay.enacted| ==> EnactsExactly(w, after, 1))
            && (after.relay.next.None? && !Idle(after)
                ==> Leftover(after, i, BuiltBlock(w.paras[i], round.paraBuild)))
  {
    hide CollectPhase, EnactPhase;
    if !Starts(w, round) {
      NotStarted(w, i, round);
    } else if !ParaBuilds(round) {
      ParaBuildFailed(w, i, round);
    } else {
      CollectLeaves(w, i, round);
      var (status, collected) := CollectPhase(w, i, round);
      if status.Ok? {
        CollectRun(w, i, round);
        EnactLeaves(collected, i, BuiltBlock(w.paras[i], round.paraBuild), round);
      }
    }
  }

  /** A whole `evolve`: from an idle world it ends with a relay block waiting, idle, or with one block left
      in its cell, and idle when it succeeds. */
  lemma {:induction false} EvolveLeaves(w: World, i: nat, rounds: seq<Round>)
    requires Idle(w) && i <= |w.paras| == |rounds|
    ensures var (status, after) := EvolveFrom(w, i, rounds);
            && (after.relay.next.Some? || Idle(after) || exists j, block :: Leftover(after, j, block))
            && (status.Ok? ==> Idle(after))
    decreases |w.paras| - i
  {
    hide EvolvePara, Leftover, Starts, ParaBuilds, EnactsExactly;
    if i < |w.paras| {
      RoundLeaves(w, i, rounds[i]);
      var (status, next) := EvolvePara(w, i, rounds[i]);
      if status.Ok? {
        RoundRun(w, i, rounds[i]);
        EvolveLeaves(next, i + 1, rounds);
      }
    }
  }

  // ---- The next round of the same parachain ----

  /** The old collation is enacted by the new round's first import, which approves the new block. */
  lemma RetryDiverges(w: World, i: nat, block: Built, round: Round)
    requires Leftover(w, i, block) && w.relay.collations != [] && CollectPhase(w, i, round).0.Ok?
    ensures var after := CollectPhase(w, i, round).1;
            && Idle(after) && |after.paras| == |w.paras|
            && |after.relay.enacted| == |w.relay.enacted| + 1 && w.relay.enacted <= after.relay.enacted
            && var e := after.relay.enacted[|w.relay.enacted|];
               && e.collected == block && e.candidate.paraHead == block.header
               && e.approved == Some(BuiltBlock(w.paras[i], round.paraBuild))
  {
    hide ImportRelay, CollectPhase, BeforeFirstImport, NextHeader, BuiltBlock;
    CollectPhaseReduces(w, i, round);
    FirstImportOf(w, i, round);
    var b := BeforeFirstImport(w, i, round);
    BeforeKeepsParas(w, i, round);
    ImportEnactsOne(b.relay, b.slots, round.firstImport, i);
    ImportStep(b, round.firstImport);
  }

  /** The second half of a round with nothing pending. */
  lemma NothingLeftToEnact(w: World, i: nat, round: Round)
    requires Idle(w) && i < |w.paras| && EnactPhase(w, i, round).0.Ok?
    ensures var after := EnactPhase(w, i, round).1; Idle(after) && after.relay.enacted == w.relay.enacted
  {
    hide ImportRelay;
    var w5 := Step(w, DoBuildRelay(round.secondBuild.other, round.secondBuild.digest, round.secondBuild.fails)).1;
    assert w.relay.registered[i] == Entry(w.paras[i].id, i);
    forall j | 0 <= j < |w.relay.registered| && j != i ensures w.relay.registered[j].slot == j {
      assert w.relay.registered[j] == Entry(w.paras[j].id, j);
    }
    ImportWithNothingPending(w5.relay, w5.slots, round.secondImport, i);
  }

  /** The world with the cell of parachain `i` emptied. */
  ghost function Emptied(w: World, i: nat): (after: World)
    requires Wellformed(w) && i < |w.paras|
    ensures Wellformed(after)
  {
    w.(slots := w.slots[i := w.slots[i].(nextBlock := None)])
  }

  /** With the block not collected the new build simply replaces it. */
  lemma RetryStartsAfresh(w: World, i: nat, block: Built, round: Round)
    requires Leftover(w, i, block) && w.relay.collations == [] && EvolvePara(w, i, round).0.Ok?
    ensures Idle(Emptied(w, i)) && EvolvePara(w, i, round) == EvolvePara(Emptied(w, i), i, round)
  {
    hide EnactPhase, CollectPhase;
    CollectPhaseReduces(w, i, round);
    CollectPhaseReduces(Emptied(w, i), i, round);
    assert BeforeFirstImport(w, i, round) == BeforeFirstImport(Emptied(w, i), i, round);
  }

  /** After a round that left its block behind, the next successful round of that parachain enacts one
      block, and approves that very block exactly when the left one had not been collected; otherwise the
      new block is approved for the head of the old one. */
  lemma RetryApprovesExactlyIff(w: World, i: nat, block: Built, round: Round)
    requires Leftover(w, i, block) && EvolvePara(w, i, round).0.Ok?
    ensures var after := EvolvePara(w, i, round).1;
            && Idle(after) && |after.relay.enacted| == |w.relay.enacted| + 1 && w.relay.enacted <= after.relay.enacted
            && var e := after.relay.enacted[|w.relay.enacted|];
               && (Exact(e) <==> w.relay.collations == [])
               && e.approved == Some(BuiltBlock(w.paras[i], round.paraBuild))
  {
    hide CollectPhase, EnactPhase;
    if w.relay.collations == [] {
      RetryStartsAfresh(w, i, block, round);
      ApprovesBuilt(Emptied(w, i), i, round);
    } else {
      RetryDiverges(w, i, block, round);
      NothingLeftToEnact(CollectPhase(w, i, round).1, i, round);
    }
  }

  /** The block a successful round approves is the one it built. */
  lemma ApprovesBuilt(w: World, i: nat, round: Round)
    requires Idle(w) && i < |w.paras| && EvolvePara(w, i, round).0.Ok?
    ensures var after := EvolvePara(w, i, round).1;
            && Idle(after) && EnactsExactly(w, after, 1)
            && after.relay.enacted[|w.relay.enacted|].approved == Some(BuiltBlock(w.paras[i], round.paraBuild))
  {
    hide ImportRelay;
    RoundRun(w, i, round);
    CollectRun(w, i, round);
    CollectPhaseReduces(w, i, round);
    CollectLeaves(w, i, round);
    var collected := CollectPhase(w, i, round).1;
    EnactsCollected(collected, i, round);
  }

  lemma EnactsCollected(w: World, i: nat, round: Round)
    requires OneCollected(w, i) && EnactPhase(w, i, round).0.Ok?
    ensures var after := EnactPhase(w, i, round).1;
            |after.relay.enacted| == |w.relay.enacted| + 1
            && after.relay.enacted[|w.relay.enacted|].approved == w.slots[i].nextBlock
  {
    hide ImportRelay;
    var w5 := Step(w, DoBuildRelay(round.secondBuild.other, round.secondBuild.digest, round.secondBuild.fails)).1;
    assert w.relay.registered[i] == Entry(w.paras[i].id, i);
    ImportEnactsOne(w5.relay, w5.slots, round.secondImport, i);
  }

  // ---- A round that reaches that state, and its retry ----

  /** Just before the retry's first import. */
  lemma RetryPrepared(w: World, i: nat, block: Built, header: RelayHeader, round: Round)
    requires Collecting(w, i, block, header) && Serves(w.relay) && Healthy(round, w.relay.node)
    ensures var b := BeforeFirstImport(w, i, round);
            && RelayChained(b.relay) && Serves(b.relay) && b.relay.node == w.relay.node
            && b.relay.registered == w.relay.registered && b.relay.next.value.root.other == round.firstBuild.other
            && w.relay.registered[i] == Entry(w.paras[i].id, i)
  {
    var p, state := w.paras[i], Tip(w.relay.chain).root;
    CommitKeepsLinks(w.relay.chain, state.(heads := state.heads[p.id := Tip(p.chain)]), NoFault);
    assert VersionRoot(HeadStored(w.relay.chain, p)).other == VersionRoot(w.relay.chain).other;
  }

  lemma NothingPendingSucceeds(w: World, i: nat, round: Round)
    requires Idle(w) && i < |w.paras| && Linked(w.relay.chain) && Hosts(Tip(w.relay.chain).root, w.relay.registered)
    requires !round.secondBuild.fails && HealthyImport(round.secondImport) && !round.paraImport.ImportFailed?
    ensures EnactPhase(w, i, round).0.Ok?
  {
    hide ImportRelay;
    var build := round.secondBuild;
    var w5 := Step(w, DoBuildRelay(build.other, build.digest, build.fails)).1;
    forall k | 0 <= k < |w5.relay.registered|
      ensures Provable(Tip(w5.relay.chain).root, w5.relay.registered[k], w5.slots)
    {}
    FirstImportSucceeds(w5.relay, w5.slots, round.secondImport);
  }

  lemma RetryCollects(w: World, i: nat, block: Built, header: RelayHeader, round: Round)
    requires Collecting(w, i, block, header) && Serves(w.relay) && Healthy(round, w.relay.node)
    ensures var (status, after) := CollectPhase(w, i, round);
            && status.Ok? && Linked(after.relay.chain) && |after.paras| == |w.paras|
            && Hosts(Tip(after.relay.chain).root, after.relay.registered)
  {
    hide CollectPhase, ImportRelay, BeforeFirstImport, Serves;
    RetryPrepared(w, i, block, header, round);
    CodeOf(w.relay);
    FirstImportOf(w, i, round);
    var b := BeforeFirstImport(w, i, round);
    var c := Collation(w.paras[i].id, block, header);
    SecondImportSucceeds(b.relay, b.slots, round.firstImport, i, c);
    SecondImport(b.relay, b.slots, round.firstImport, i, c);
    ImportStep(b, round.firstImport);
    ImportKeepsLinks(b.relay.chain, EnactedHead(b.relay.next.value, c), Answer.Imported);
    EnactedHosts(b.relay, c);
  }

  lemma CodeOf(r: Relay)
    requires |r.chain| > 0 && Serves(r)
    ensures Coded(r)
  {
  }

  lemma EnactedHosts(r: Relay, c: Collation)
    requires RelayChained(r) && r.next.Some? && Serves(r)
    ensures var chain := r.chain + [EnactedHead(r.next.value, c)]; Hosts(Tip(chain).root, r.registered)
  {
  }

  /** The round, its second relay build failing. */
  ghost function SecondBuildFails(round: Round): Round {
    round.(secondBuild := round.secondBuild.(fails := true))
  }

  /** From every ready world on an archive: a round whose second relay build fails, all else healthy,
      leaves its collation pending, its block in its cell and no relay block waiting.  Running the round of
      that parachain again in a healthy environment succeeds and has the new block approved for the head of
      the old one. */
  lemma FailedBuildThenDiverges(w: World, i: nat, round: Round, again: Round)
    requires Ready(w) && Serves(w.relay) && i < |w.paras|
    requires Healthy(round, w.relay.node) && Healthy(again, w.relay.node)
    ensures var block := BuiltBlock(w.paras[i], round.paraBuild);
            var (failed, w1) := EvolvePara(w, i, SecondBuildFails(round)); var (status, w2) := EvolvePara(w1, i, again);
            && failed == CoreBuilderFailed && Leftover(w1, i, block) && |w1.relay.collations| == 1
            && status.Ok? && |w2.relay.enacted| == |w1.relay.enacted| + 1
            && w2.relay.enacted[|w1.relay.enacted|].collected == block
            && !Exact(w2.relay.enacted[|w1.relay.enacted|])
  {
    hide CollectPhase, EnactPhase, Serves, AfterCollect;
    var bad := SecondBuildFails(round);
    var block, header := BuiltBlock(w.paras[i], round.paraBuild),
        NextHeader(HeadStored(w.relay.chain, w.paras[i]), round.firstBuild);
    SecondBuildFailed(w, i, round);
    var w1 := EvolvePara(w, i, bad).1;
    RetryCollects(w1, i, block, header, again);
    RetryDiverges(w1, i, block, again);
    var collected := CollectPhase(w1, i, again).1;
    NothingPendingSucceeds(collected, i, again);
    NothingLeftToEnact(collected, i, again);
  }

  lemma SecondBuildFailed(w: World, i: nat, round: Round)
    requires Ready(w) && Serves(w.relay) && i < |w.paras| && Healthy(round, w.relay.node)
    ensures var block, header := BuiltBlock(w.paras[i], round.paraBuild),
                NextHeader(HeadStored(w.relay.chain, w.paras[i]), round.firstBuild);
            var (failed, w1) := EvolvePara(w, i, SecondBuildFails(round));
            && failed == CoreBuilderFailed && Leftover(w1, i, block) && |w1.relay.collations| == 1
            && Collecting(w1, i, block, header) && Serves(w1.relay) && w1.relay.node == w.relay.node
            && |w1.paras| == |w.paras|
  {
    hide CollectPhase;
    var bad := SecondBuildFails(round);
    CollectPhaseSucceeds(w, i, bad);
    CollectPhaseWorld(w, i, bad);
    CollectedIsCollecting(w, i, bad);
    AfterCollectServes(w, i, round);
    assert AfterCollect(w, i, bad) == AfterCollect(w, i, round);
  }

  // ---- A block left uncollected, and the round of another parachain ----

  /** The next round of another parachain collects the block left behind exactly when the head the relay
      still stores for its parachain has the state the block's proof was recorded on. */
  lemma LeftoverCollectsIff(w: World, i: nat, block: Built, j: nat, round: Round)
    requires Leftover(w, i, block) && w.relay.collations == [] && j < |w.paras| && j != i
    requires Coded(w.relay) && Builds(round) && HealthyImport(round.firstImport)
    requires forall k :: 0 <= k < |w.paras| ==> w.paras[k].id in Tip(w.relay.chain).root.heads
    ensures CollectPhase(w, j, round).0.Ok?
            <==> Tip(w.relay.chain).root.heads[w.paras[i].id].root == block.proof
  {
    hide CollectFrom, CollectPhase;
    CollectPhaseReduces(w, j, round);
    var b := BeforeFirstImport(w, j, round);
    var header := b.relay.next.value;
    var imported := b.relay.(next := None, chain := b.relay.chain + [header], imports := b.relay.imports + [header]);
    assert Tip(imported.chain) == header;
    CollectSucceedsIffProvable(imported, b.slots, 0, header, round.firstImport);
    assert CollectPhase(w, j, round).0 == CollectFrom(imported, b.slots, 0, header, round.firstImport).0;
    forall k | 0 <= k < |w.relay.registered|
      ensures Provable(header.root, w.relay.registered[k], b.slots) <==>
              (k == i ==> Tip(w.relay.chain).root.heads[w.paras[i].id].root == block.proof)
    {
      assert w.relay.registered[k] == Entry(w.paras[k].id, k) && w.relay.registered[j] == Entry(w.paras[j].id, j);
    }
    assert w.relay.registered[i] == Entry(w.paras[i].id, i);
  }

  // ---- On a backend that is no archive ----

  /** The second import of a round cannot succeed above genesis. */
  lemma DiscardingBackendStopsImport(r: Relay, slots: seq<Slot>, env: ImportEnv)
    requires |r.chain| > 1 && Wired(r.registered, |slots|) && !r.node.archive && r.collations != []
    ensures !ImportRelay(r, slots, env).0.Ok?
  {
    if r.next.Some? && !env.answer.ImportFailed? {
      var header := r.next.value;
      var imported := r.(next := None, chain := ImportBest(r.chain, header, env.answer),
          imports := r.imports + [header]);
      DiscardingBackendEnactsNothing(imported, slots, r.collations, 0, Tip(imported.chain), env);
    }
  }

  /** Once the relay chain is above genesis no round, and so no `evolve` of any parachain, succeeds. */
  lemma DiscardingBackendNeverEvolves(w: World, i: nat, round: Round)
    requires Idle(w) && i < |w.paras| && |w.relay.chain| > 1 && !w.relay.node.archive
    ensures !EvolvePara(w, i, round).0.Ok?
  {
    hide CollectPhase, ImportRelay;
    if CollectPhase(w, i, round).0.Ok? {
      var collected := CollectPhase(w, i, round).1;
      CollectedAbove(w, i, round);
      var build := round.secondBuild;
      var w5 := Step(collected, DoBuildRelay(build.other, build.digest, build.fails)).1;
      DiscardingBackendStopsImport(w5.relay, w5.slots, round.secondImport);
    }
  }

  lemma CollectedAbove(w: World, i: nat, round: Round)
    requires Idle(w) && i < |w.paras| && CollectPhase(w, i, round).0.Ok?
    ensures var after := CollectPhase(w, i, round).1;
            |after.relay.chain| >= |w.relay.chain| && after.relay.node == w.relay.node && after.relay.collations != []
  {
    hide CollectPhase, ImportRelay;
    CollectPhaseReduces(w, i, round);
    FirstImportOf(w, i, round);
    var b := BeforeFirstImport(w, i, round);
    ImportCollectsOne(b.relay, b.slots, round.firstImport, i);
    ImportStep(b, round.firstImport);
  }

  /** The world is ready, its code usable and every parachain hosted; the backend is of either kind. */
  ghost predicate Prepared(w: World) {
    Ready(w) && CodeKept(w.relay) && Hosts(Tip(w.relay.chain).root, w.relay.registered)
  }

  /** What a healthy round on such a backend ends in. */
  lemma DiscardingBackendLosesCode(w: World, i: nat, round: Round)
    requires Prepared(w) && i < |w.paras| && Healthy(round, w.relay.node) && !w.relay.node.archive
    ensures EvolvePara(w, i, round).0 == EnactmentFailed(CodeHashRetrieval)
  {
    hide CollectPhase, ImportRelay, AfterCollect;
    CollectPhaseSucceeds(w, i, round);
    CollectPhaseWorld(w, i, round);
    CollectedServesAll(w, i, round);
    CollectedIsCollecting(w, i, round);
    var mid, build := AfterCollect(w, i, round), round.secondBuild;
    LosesCodeOnImport(mid.(relay := mid.relay.(next := Some(NextHeader(mid.relay.chain, build)))), i,
        round.secondImport);
  }

  lemma CollectedServesAll(w: World, i: nat, round: Round)
    requires Prepared(w) && i < |w.paras| && Healthy(round, w.relay.node)
    ensures var mid := AfterCollect(w, i, round);
            && |mid.relay.chain| > 1 && mid.relay.node == w.relay.node
            && CodeKept(mid.relay) && Hosts(Tip(mid.relay.chain).root, mid.relay.registered)
  {
    var mid := AfterCollect(w, i, round);
    var chain := HeadStored(w.relay.chain, w.paras[i]);
    assert Tip(mid.relay.chain) == NextHeader(chain, round.firstBuild);
    assert VersionRoot(mid.relay.chain) == Tip(chain).root;
  }

  lemma LosesCodeOnImport(w: World, i: nat, env: ImportEnv)
    requires Wellformed(w) && Aligned(w) && i < |w.paras| && HealthyImport(env) && !w.relay.node.archive
    requires |w.relay.chain| > 1 && RelayChained(w.relay) && w.relay.next.Some?
    requires w.relay.node.runtime(Tip(w.relay.chain).root.other)
    requires Hosts(Tip(w.relay.chain).root, w.relay.registered)
    requires |w.relay.collations| == 1 && w.relay.collations[0].id == w.paras[i].id && w.slots[i].nextBlock.Some?
    ensures ImportRelay(w.relay, w.slots, env).0 == EnactmentFailed(CodeHashRetrieval)
  {
    var r, header := w.relay, w.relay.next.value;
    var imported := r.(next := None, chain := r.chain + [header], imports := r.imports + [header]);
    assert r.registered[i] == Entry(w.paras[i].id, i);
    SlotForEntry(r.registered, i);
    assert VersionRoot(imported.chain) == Tip(r.chain).root && Tip(imported.chain) == header;
    assert EnactEnvAt(env, 0) == EnactEnv(false, NoFault);
    DiscardingBackendEnactsNothing(imported, w.slots, r.collations, 0, header, env);
  }

  /** A healthy `evolve` of at least one parachain succeeds exactly on an archive. */
  lemma HealthyEvolveIffArchive(w: World, rounds: seq<Round>)
    requires Prepared(w) && 0 < |w.paras| == |rounds| && AllHealthy(rounds, w.relay.node)
    ensures EvolveFrom(w, 0, rounds).0.Ok? <==> w.relay.node.archive
    ensures !w.relay.node.archive ==> EvolveFrom(w, 0, rounds).0 == EnactmentFailed(CodeHashRetrieval)
  {
    hide EvolvePara;
    if w.relay.node.archive {
      EvolveFromSucceeds(w, 0, rounds);
    } else {
      DiscardingBackendLosesCode(w, 0, rounds[0]);
    }
  }

  /** From any genesis states with usable code: `new` succeeds on either kind of backend, and the first
      healthy `evolve` after it exactly on an archive. */
  lemma GenesisEvolvesIffArchive(node: Node, relay: RelayStorage, bases: seq<Kv>, fields: seq<Field>,
                                 hash: Code -> CodeHash, build: BuildEnv, env: ImportEnv, rounds: seq<Round>)
    requires node.runtime(relay.other) && node.runtime(build.other)
    requires |bases| == |fields| == |rounds| && |fields| > 0 && Onboardable(fields, hash)
    requires !build.fails && HealthyImport(env) && AllHealthy(rounds, node)
    ensures var (started, w1) := New(GenesisWorld(node, relay, Ids(fields), bases), fields, hash, build, env);
            var status := EvolveFrom(w1, 0, rounds).0;
            && started.Ok? && (status.Ok? <==> node.archive)
            && (!node.archive ==> status == EnactmentFailed(CodeHashRetrieval))
  {
    hide New, EvolveFrom;
    NewFromGenesis(node, relay, bases, fields, hash, build, env);
    var w1 := New(GenesisWorld(node, relay, Ids(fields), bases), fields, hash, build, env).1;
    HealthyEvolveIffArchive(w1, rounds);
  }
}
