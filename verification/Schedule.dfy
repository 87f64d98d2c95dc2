/** The schedule the companion generates: onboard everything once, then evolve every chain by one
    parachain block and two relay blocks.
 */
module Schedule {
  import opened Ledger
  import opened Externalities
  import opened ParasStorage
  import opened Protocol
  import opened Runs
  import opened Enacting

  datatype BuildEnv = BuildEnv(other: Kv, digest: nat, body: Body, fails: bool)
  datatype ParaEnv = ParaEnv(post: Kv, digest: nat, body: Body, fails: bool, leaf: Answer)

  /** What the environment does during one parachain's share of `evolve`. */
  datatype Round = Round(
    headFault: Fault,
    firstBuild: BuildEnv,
    paraBuild: ParaEnv,
    firstImport: ImportEnv,
    secondBuild: BuildEnv,
    secondImport: ImportEnv,
    paraImport: Answer)

  /** Head, relay build, parachain build, relay import: the block is collected. */
  ghost function CollectPhase(w: World, i: nat, round: Round): (result: (Status, World))
    requires Wellformed(w) && i < |w.paras|
    ensures Wellformed(result.1) && |result.1.paras| == |w.paras|
  {
    var (s1, w1) := Step(w, DoUpdateHead(w.paras[i].id, Tip(w.paras[i].chain), round.headFault));
    if !s1.Ok? then (s1, w1)
    else
      var (s2, w2) := Step(w1, DoBuildRelay(round.firstBuild.other, round.firstBuild.digest, round.firstBuild.fails));
      if !s2.Ok? then (s2, w2)
      else
        var (s3, w3) := Step(w2, DoBuildPara(i, round.paraBuild.post, round.paraBuild.digest, round.paraBuild.body,
            round.paraBuild.fails, round.paraBuild.leaf));
        if !s3.Ok? then (s3, w3) else Step(w3, DoImportRelay(round.firstImport))
  }

  /** Relay build, relay import, parachain import: the block is enacted and imported. */
  ghost function EnactPhase(w: World, i: nat, round: Round): (result: (Status, World))
    requires Wellformed(w) && i < |w.paras|
    ensures Wellformed(result.1) && |result.1.paras| == |w.paras|
  {
    var (s5, w5) := Step(w, DoBuildRelay(round.secondBuild.other, round.secondBuild.digest, round.secondBuild.fails));
    if !s5.Ok? then (s5, w5)
    else
      var (s6, w6) := Step(w5, DoImportRelay(round.secondImport));
      if !s6.Ok? then (s6, w6) else Step(w6, DoImportPara(i, round.paraImport))
  }

  ghost function EvolvePara(w: World, i: nat, round: Round): (result: (Status, World))
    requires Wellformed(w) && i < |w.paras|
    ensures Wellformed(result.1) && |result.1.paras| == |w.paras|
  {
    var (status, collected) := CollectPhase(w, i, round);
    if status.Ok? then EnactPhase(collected, i, round) else (status, collected)
  }

  ghost function EvolveFrom(w: World, i: nat, rounds: seq<Round>): (result: (Status, World))
    requires Wellformed(w) && i <= |w.paras| == |rounds|
    ensures Wellformed(result.1) && |result.1.paras| == |w.paras|
    decreases |w.paras| - i
  {
    if i == |w.paras| then (Ok, w)
    else
      var (status, next) := EvolvePara(w, i, rounds[i]);
      if status.Ok? then EvolveFrom(next, i + 1, rounds) else (status, next)
  }

  ghost predicate Quiescent(w: World) {
    && w.relay.next.None? && w.relay.collations == []
    && forall i :: 0 <= i < |w.slots| ==> w.slots[i].nextBlock.None? && w.slots[i].nextImport.None?
  }

  /** Parachain `i` is registered at position `i`, under the id its builder carries. */
  ghost predicate Aligned(w: World) {
    && |w.relay.registered| == |w.paras| == |w.slots| && DistinctIds(w.relay.registered)
    && forall i :: 0 <= i < |w.paras| ==> w.relay.registered[i] == Entry(w.paras[i].id, i)
  }

  ghost predicate Hosts(state: RelayStorage, registered: seq<Entry>) {
    forall j :: 0 <= j < |registered| ==>
      && registered[j].id in state.parachains && registered[j].id in state.heads
      && registered[j].id in state.codes.current
  }

  // ---- Collecting succeeds exactly when every pending block builds on the head the relay stores ----

  ghost predicate HealthyImport(env: ImportEnv) {
    && env.answer.Imported?
    && (forall k :: 0 <= k < |env.enact| ==> env.enact[k] == EnactEnv(false, NoFault))
    && (forall j :: 0 <= j < |env.collect| ==> env.collect[j] == CollectEnv(false, false))
  }

  ghost predicate Provable(state: RelayStorage, entry: Entry, slots: seq<Slot>)
    requires entry.slot < |slots|
  {
    && entry.id in state.heads
    && (slots[entry.slot].nextBlock.Some? ==> state.heads[entry.id].root == slots[entry.slot].nextBlock.value.proof)
  }

  lemma {:induction false} CollectSucceedsIffProvable(r: Relay, slots: seq<Slot>, j: nat, generationParent: RelayHeader,
                                                      env: ImportEnv)
    requires |r.chain| > 0 && Wired(r.registered, |slots|) && j <= |r.registered| && HealthyImport(env)
    ensures CollectFrom(r, slots, j, generationParent, env).0.Ok? <==>
            forall k :: j <= k < |r.registered| ==> Provable(Tip(r.chain).root, r.registered[k], slots)
    decreases |r.registered| - j
  {
    if j < |r.registered| {
      var (status, r1) := CollectOne(r, slots, r.registered[j], generationParent, CollectEnvAt(env, j));
      assert status.Ok? <==> Provable(Tip(r.chain).root, r.registered[j], slots);
      if status.Ok? {
        CollectSucceedsIffProvable(r1, slots, j + 1, generationParent, env);
      }
    }
  }

  lemma {:induction false} PendingOfOne(registered: seq<Entry>, slots: seq<Slot>, generationParent: RelayHeader, n: nat,
                                        i: nat)
    requires n <= |registered| && Wired(registered, |slots|) && i < |registered|
    requires forall j :: 0 <= j < |registered| && j != i ==> slots[registered[j].slot].nextBlock.None?
    ensures Pending(registered, slots, generationParent, n) ==
            if i < n && slots[registered[i].slot].nextBlock.Some?
            then [Collation(registered[i].id, slots[registered[i].slot].nextBlock.value, generationParent)] else []
  {
    if n > 0 {
      PendingOfOne(registered, slots, generationParent, n - 1, i);
    }
  }

  /** The code the next commits depend on is usable. */
  ghost predicate CodeKept(r: Relay)
    requires |r.chain| > 0
  {
    Coded(r) && r.node.runtime(Tip(r.chain).root.other)
  }

  ghost predicate Operable(r: Relay)
    requires |r.chain| > 0
  {
    r.node.archive && CodeKept(r)
  }

  /** The relay chain can commit, and hosts every registered parachain. */
  ghost predicate Serves(r: Relay)
    requires |r.chain| > 0
  {
    Operable(r) && Hosts(Tip(r.chain).root, r.registered)
  }

  // ---- The two relay imports of a round ----

  lemma ImportStep(w: World, env: ImportEnv)
    requires Wellformed(w)
    ensures var (status, r, slots) := ImportRelay(w.relay, w.slots, env); var after := World(r, slots, w.paras);
            && Step(w, DoImportRelay(env)) == (status, after) && (Aligned(w) ==> Aligned(after))
            && r.next.None?
  {
    hide ImportRelay;
  }

  ghost predicate OnlySlot(r: Relay, slots: seq<Slot>, i: nat) {
    && Wired(r.registered, |slots|) && DistinctIds(r.registered) && i < |r.registered|
    && forall j :: 0 <= j < |r.registered| && j != i ==>
         slots[r.registered[j].slot].nextBlock.None? && r.registered[j].slot != r.registered[i].slot
  }

  /** With nothing to enact, the import only collects the one block there is. */
  lemma FirstImport(r: Relay, slots: seq<Slot>, env: ImportEnv, i: nat)
    requires RelayChained(r) && OnlySlot(r, slots, i) && r.collations == [] && env.answer.Imported?
    requires slots[r.registered[i].slot].nextBlock.Some?
    requires ImportRelay(r, slots, env).0.Ok?
    ensures r.next.Some?
    ensures var block := slots[r.registered[i].slot].nextBlock.value; var header := r.next.value;
            && ImportRelay(r, slots, env).2 == slots
            && ImportRelay(r, slots, env).1 ==
               r.(next := None, chain := r.chain + [header], imports := r.imports + [header],
                  collations := [Collation(r.registered[i].id, block, header)])
  {
    ImportLeavesPending(r, slots, env);
    PendingOfOne(r.registered, slots, r.next.value, |r.registered|, i);
  }

  lemma FirstImportSucceeds(r: Relay, slots: seq<Slot>, env: ImportEnv)
    requires RelayChained(r) && Wired(r.registered, |slots|) && r.collations == [] && r.next.Some? && HealthyImport(env)
    requires forall k :: 0 <= k < |r.registered| ==> Provable(Tip(r.chain).root, r.registered[k], slots)
    ensures ImportRelay(r, slots, env).0.Ok?
  {
    var imported := r.(next := None, chain := r.chain + [r.next.value], imports := r.imports + [r.next.value]);
    CollectSucceedsIffProvable(imported, slots, 0, r.next.value, env);
  }

  ghost function EnactedHead(header: RelayHeader, c: Collation): RelayHeader {
    header.(root := AfterEnact(header.root, c))
  }

  /** With the one pending collation, the import enacts it and approves its slot; nothing is left to collect. */
  lemma SecondImport(r: Relay, slots: seq<Slot>, env: ImportEnv, i: nat, c: Collation)
    requires RelayChained(r) && OnlySlot(r, slots, i) && r.collations == [c] && env.answer.Imported?
    requires c.id == r.registered[i].id
    requires ImportRelay(r, slots, env).0.Ok?
    ensures r.next.Some? && c.id in r.next.value.root.parachains
    ensures var k := r.registered[i].slot; var header := r.next.value;
            && ImportRelay(r, slots, env).2 == slots[k := Approve(slots[k]).1]
            && slots[k].nextBlock.Some?
            && ImportRelay(r, slots, env).1 ==
               r.(next := None, chain := r.chain + [EnactedHead(header, c)], imports := r.imports + [header],
                   collations := [],
                  enacted := r.enacted + [Enactment(CandidateFor(header.root, c, header), c.block, slots[k].nextBlock)])
  {
    var header := r.next.value;
    var imported := r.(next := None, chain := r.chain + [header], imports := r.imports + [header]);
    var k := r.registered[i].slot;
    SlotForEntry(r.registered, i);
    EnactOneOk(imported, slots, c, header, EnactEnvAt(env, 0));
    var (_, one, slots1) := EnactOne(imported, slots, c, header, EnactEnvAt(env, 0));
    assert EnactFrom(imported, slots, [c], 0, header, env) == (Ok, one.(collations := []), slots1);
    assert RewriteTip(imported.chain, AfterEnact(header.root, c)) == r.chain + [EnactedHead(header, c)];
    ImportLeavesPending(r, slots, env);
    PendingOfOne(r.registered, slots1, header, |r.registered|, i);
  }

  lemma SecondImportSucceeds(r: Relay, slots: seq<Slot>, env: ImportEnv, i: nat, c: Collation)
    requires RelayChained(r) && OnlySlot(r, slots, i) && r.collations == [c] && r.next.Some? && HealthyImport(env)
    requires c.id == r.registered[i].id && slots[r.registered[i].slot].nextBlock.Some?
    requires Serves(r)
    ensures ImportRelay(r, slots, env).0.Ok?
  {
    var header := r.next.value;
    var imported := r.(next := None, chain := r.chain + [header], imports := r.imports + [header]);
    SlotForEntry(r.registered, i);
    assert EnactEnvAt(env, 0) == EnactEnv(false, NoFault);
    assert VersionRoot(imported.chain) == Tip(r.chain).root;
    EnactOneIff(imported, slots, c, header, EnactEnvAt(env, 0));
    EnactOneOk(imported, slots, c, header, EnactEnvAt(env, 0));
    var (_, one, slots1) := EnactOne(imported, slots, c, header, EnactEnvAt(env, 0));
    assert EnactFrom(imported, slots, [c], 0, header, env) == (Ok, one.(collations := []), slots1);
    CollectSucceedsIffProvable(one.(collations := []), slots1, 0, header, env);
  }

  // ---- One parachain's round, in closed form ----

  ghost function BuiltBlock(p: Para, env: ParaEnv): Built
    requires |p.chain| > 0
  {
    Built(Child(p.chain, env.post, env.digest), env.body, Tip(p.chain).root, p.built)
  }

  ghost function NextHeader(chain: seq<RelayHeader>, env: BuildEnv): RelayHeader
    requires |chain| > 0
  {
    Child(chain, Execute(Tip(chain).root, |chain|, env.other), env.digest)
  }

  /** The relay chain with the parachain's present head stored at its tip. */
  ghost function HeadStored(chain: seq<RelayHeader>, p: Para): (after: seq<RelayHeader>)
    requires |chain| > 0 && |p.chain| > 0
    ensures |after| == |chain|
  {
    var state := Tip(chain).root;
    RewriteTip(chain, state.(heads := state.heads[p.id := Tip(p.chain)]))
  }

  ghost function AfterCollect(w: World, i: nat, round: Round): (after: World)
    requires Wellformed(w) && i < |w.paras|
    ensures Wellformed(after)
  {
    var p := w.paras[i];
    var chain := HeadStored(w.relay.chain, p);
    var header := NextHeader(chain, round.firstBuild);
    var block := BuiltBlock(p, round.paraBuild);
    World(
      w.relay.(next := None, chain := chain + [header], imports := w.relay.imports + [header],
               collations := [Collation(p.id, block, header)]),
      w.slots[i := w.slots[i].(nextBlock := Some(block))],
      w.paras[i := p.(built := p.built + 1)])
  }

  ghost predicate AllImported(round: Round) {
    round.firstImport.answer.Imported? && round.secondImport.answer.Imported? && round.paraImport.Imported?
  }

  ghost function BeforeFirstImport(w: World, i: nat, round: Round): (before: World)
    requires Wellformed(w) && i < |w.paras|
    ensures Wellformed(before)
  {
    var p := w.paras[i];
    var chain := HeadStored(w.relay.chain, p);
    World(
      w.relay.(chain := chain, next := Some(NextHeader(chain, round.firstBuild))),
      w.slots[i := w.slots[i].(nextBlock := Some(BuiltBlock(p, round.paraBuild)))],
      w.paras[i := p.(built := p.built + 1)])
  }

  ghost predicate Builds(round: Round) {
    round.headFault.NoFault? && !round.firstBuild.fails && !round.paraBuild.fails && !round.paraBuild.leaf.ImportFailed?
  }

  lemma CollectPhaseReduces(w: World, i: nat, round: Round)
    requires Wellformed(w) && w.relay.next.None? && i < |w.paras|
    ensures if Builds(round) && Coded(w.relay) then CollectPhase(w, i, round)
            == Step(BeforeFirstImport(w, i, round), DoImportRelay(round.firstImport))
            else !CollectPhase(w, i, round).0.Ok?
  {
  }

  lemma BeforeFirstImportChained(w: World, i: nat, round: Round)
    requires Chained(w) && Quiescent(w) && Aligned(w) && i < |w.paras|
    ensures var b := BeforeFirstImport(w, i, round); RelayChained(b.relay) && OnlySlot(b.relay, b.slots, i)
  {
    var p := w.paras[i];
    var state := Tip(w.relay.chain).root;
    CommitKeepsLinks(w.relay.chain, state.(heads := state.heads[p.id := Tip(p.chain)]), NoFault);
  }

  lemma CollectPhaseWorld(w: World, i: nat, round: Round)
    requires Chained(w) && Quiescent(w) && Aligned(w) && i < |w.paras| && AllImported(round)
    requires CollectPhase(w, i, round).0.Ok?
    ensures CollectPhase(w, i, round).1 == AfterCollect(w, i, round)
  {
    CollectPhaseReduces(w, i, round);
    BeforeFirstImportChained(w, i, round);
    var before := BeforeFirstImport(w, i, round);
    FirstImport(before.relay, before.slots, round.firstImport, i);
  }

  /** A world in which parachain `i` has its block collected and nothing else is under way. */
  ghost predicate Collecting(w: World, i: nat, block: Built, header: RelayHeader) {
    && Chained(w) && Aligned(w) && i < |w.paras|
    && w.relay.next.None? && w.relay.collations == [Collation(w.paras[i].id, block, header)]
    && w.slots[i].nextBlock == Some(block) && IsChildOfTip(block.header, w.paras[i].chain)
    && (forall j :: 0 <= j < |w.slots| && j != i ==> w.slots[j].nextBlock.None?)
  }

  ghost function AfterEnactment(w: World, i: nat, c: Collation, round: Round): World
    requires Wellformed(w) && i < |w.paras| && c.id in Tip(w.relay.chain).root.parachains
  {
    var p, slot := w.paras[i], w.slots[i];
    var header := NextHeader(w.relay.chain, round.secondBuild);
    World(
      w.relay.(next := None, chain := w.relay.chain + [EnactedHead(header, c)], imports := w.relay.imports + [header],
               collations := [],
               enacted := w.relay.enacted + [Enactment(CandidateFor(header.root, c, header), c.block, slot.nextBlock)]),
      w.slots[i := Slot(None, None, slot.approved + {c.block.serial})],
      w.paras[i := p.(chain := p.chain + [c.block.header], imports := p.imports + [c.block])])
  }

  lemma EnactPhaseWorld(w: World, i: nat, block: Built, header: RelayHeader, round: Round)
    requires Collecting(w, i, block, header) && AllImported(round)
    requires EnactPhase(w, i, round).0.Ok?
    ensures w.paras[i].id in Tip(w.relay.chain).root.parachains
    ensures EnactPhase(w, i, round).1 == AfterEnactment(w, i, Collation(w.paras[i].id, block, header), round)
  {
    var c := Collation(w.paras[i].id, block, header);
    var built := w.relay.(next := Some(NextHeader(w.relay.chain, round.secondBuild)));
    SecondImport(built, w.slots, round.secondImport, i, c);
    var approved := Approve(w.slots[i]).1;
    var (_, imported, slots) := ImportRelay(built, w.slots, round.secondImport);
    assert slots == w.slots[i := approved];
    UpdateTwice(w.slots, i, approved, Slot(None, None, approved.approved));
    assert EnactPhase(w, i, round) == Step(World(imported, slots, w.paras), DoImportPara(i, round.paraImport));
  }

  lemma UpdateTwice<T>(xs: seq<T>, i: nat, a: T, b: T)
    requires i < |xs|
    ensures xs[i := a][i := b] == xs[i := b]
  {
  }

  lemma CollectedIsCollecting(w: World, i: nat, round: Round)
    requires Chained(w) && Quiescent(w) && Aligned(w) && i < |w.paras|
    ensures var p := w.paras[i];
            Collecting(AfterCollect(w, i, round), i, BuiltBlock(p, round.paraBuild),
                       NextHeader(HeadStored(w.relay.chain, p), round.firstBuild))
  {
    var p := w.paras[i];
    var state := Tip(w.relay.chain).root;
    CommitKeepsLinks(w.relay.chain, state.(heads := state.heads[p.id := Tip(p.chain)]), NoFault);
    var chain := HeadStored(w.relay.chain, p);
    ImportKeepsLinks(chain, NextHeader(chain, round.firstBuild), Answer.Imported);
  }

  /** A successful round whose imports are all answered `Imported`, and everything it changes. */
  ghost predicate Advanced(w: World, after: World, i: nat)
    requires Wellformed(w) && i < |w.paras|
  {
    && Chained(after) && Quiescent(after) && Aligned(after)
    && |after.relay.chain| == |w.relay.chain| + 2
    && after.relay.registered == w.relay.registered && after.relay.node == w.relay.node
    && |after.paras| == |w.paras| && after.paras == w.paras[i := after.paras[i]]
    && |after.paras[i].chain| == |w.paras[i].chain| + 1 && w.paras[i].chain <= after.paras[i].chain
    && after.paras[i].id == w.paras[i].id
    && StoresHead(w, after, i)
    && RecordsEnactment(w, after, i)
  }

  ghost predicate StoresHead(w: World, after: World, i: nat)
    requires Wellformed(w) && Wellformed(after) && i < |w.paras| == |after.paras|
  {
    var before, now := Tip(w.relay.chain).root, Tip(after.relay.chain).root;
    && now.parachains == before.parachains && now.codes == before.codes
    && now.heads == before.heads[w.paras[i].id := Tip(after.paras[i].chain)]
  }

  /** The one candidate enacted is the parachain's new block, approved and imported as collected. */
  ghost predicate RecordsEnactment(w: World, after: World, i: nat)
    requires |after.paras| == |w.paras| && i < |w.paras|
  {
    |after.relay.enacted| == |w.relay.enacted| + 1 && w.relay.enacted <= after.relay.enacted
    && |after.paras[i].imports| == |w.paras[i].imports| + 1
    && |after.paras[i].chain| > 0 && |w.relay.chain| > 0
    && var e := after.relay.enacted[|w.relay.enacted|];
       && e.candidate.id == w.paras[i].id
       && e.candidate.relayParentNumber == e.candidate.backedInNumber + 1 == |w.relay.chain| + 1
       && Position(Tip(w.relay.chain).root.parachains, e.candidate.id) == Some(e.candidate.core)
       && e.approved == Some(e.collected) && e.collected.header == e.candidate.paraHead == Tip(after.paras[i].chain)
       && after.paras[i].imports == w.paras[i].imports + [e.collected]
  }

  lemma AfterEnactmentAdvances(w: World, i: nat, round: Round)
    requires Chained(w) && Quiescent(w) && Aligned(w) && i < |w.paras|
    requires w.paras[i].id in Tip(w.relay.chain).root.parachains
    ensures var p := w.paras[i]; var mid := AfterCollect(w, i, round);
            var c := Collation(p.id, BuiltBlock(p, round.paraBuild),
                NextHeader(HeadStored(w.relay.chain, p), round.firstBuild));
            p.id in Tip(mid.relay.chain).root.parachains && Advanced(w, AfterEnactment(mid, i, c, round), i)
  {
    var p := w.paras[i];
    var mid := AfterCollect(w, i, round);
    var header := NextHeader(HeadStored(w.relay.chain, p), round.firstBuild);
    var c := Collation(p.id, BuiltBlock(p, round.paraBuild), header);
    CollectedIsCollecting(w, i, round);
    assert Tip(mid.relay.chain) == header;
    var last := NextHeader(mid.relay.chain, round.secondBuild);
    ImportKeepsLinks(mid.relay.chain, EnactedHead(last, c), Answer.Imported);
    ImportKeepsLinks(p.chain, c.block.header, Answer.Imported);
    var after := AfterEnactment(mid, i, c, round);
    assert Tip(after.relay.chain) == EnactedHead(last, c);
    assert Tip(after.paras[i].chain) == c.block.header;
  }

  lemma EvolveParaAdvances(w: World, i: nat, round: Round)
    requires Chained(w) && Quiescent(w) && Aligned(w) && i < |w.paras| && AllImported(round)
    requires EvolvePara(w, i, round).0.Ok?
    ensures Advanced(w, EvolvePara(w, i, round).1, i)
  {
    CollectPhaseWorld(w, i, round);
    CollectedIsCollecting(w, i, round);
    var p := w.paras[i];
    var mid := AfterCollect(w, i, round);
    EnactPhaseWorld(mid, i, BuiltBlock(p, round.paraBuild), NextHeader(HeadStored(w.relay.chain, p), round.firstBuild),
        round);
    assert p.id in Tip(w.relay.chain).root.parachains;
    AfterEnactmentAdvances(w, i, round);
  }

  // ---- Progress ----

  /** Nothing fails by itself, and no block's execution breaks the code. */
  ghost predicate Healthy(round: Round, node: Node) {
    && round.headFault.NoFault? && !round.firstBuild.fails && !round.secondBuild.fails
    && !round.paraBuild.fails && !round.paraBuild.leaf.ImportFailed?
    && HealthyImport(round.firstImport) && HealthyImport(round.secondImport) && round.paraImport.Imported?
    && node.runtime(round.firstBuild.other) && node.runtime(round.secondBuild.other)
  }

  /** Collecting needs no archive. */
  lemma CollectPhaseSucceeds(w: World, i: nat, round: Round)
    requires Chained(w) && Quiescent(w) && Aligned(w) && i < |w.paras|
    requires Builds(round) && HealthyImport(round.firstImport)
    requires Coded(w.relay) && Hosts(Tip(w.relay.chain).root, w.relay.registered)
    ensures CollectPhase(w, i, round).0.Ok?
  {
    CollectPhaseReduces(w, i, round);
    BeforeFirstImportChained(w, i, round);
    var before := BeforeFirstImport(w, i, round);
    forall k | 0 <= k < |before.relay.registered|
      ensures Provable(Tip(before.relay.chain).root, before.relay.registered[k], before.slots)
    {}
    FirstImportSucceeds(before.relay, before.slots, round.firstImport);
  }

  lemma EnactPhaseSucceeds(w: World, i: nat, block: Built, header: RelayHeader, round: Round)
    requires Collecting(w, i, block, header) && Healthy(round, w.relay.node)
    requires Serves(w.relay)
    ensures EnactPhase(w, i, round).0.Ok?
  {
    hide ImportRelay;
    var c := Collation(w.paras[i].id, block, header);
    var built := w.relay.(next := Some(NextHeader(w.relay.chain, round.secondBuild)));
    SecondImportSucceeds(built, w.slots, round.secondImport, i, c);
    SecondImport(built, w.slots, round.secondImport, i, c);
    var (_, imported, slots) := ImportRelay(built, w.slots, round.secondImport);
    assert EnactPhase(w, i, round) == Step(World(imported, slots, w.paras), DoImportPara(i, round.paraImport));
  }

  lemma AfterCollectServes(w: World, i: nat, round: Round)
    requires Chained(w) && Quiescent(w) && Aligned(w) && i < |w.paras| && Healthy(round, w.relay.node)
             && Serves(w.relay)
    ensures Serves(AfterCollect(w, i, round).relay)
  {
    var mid := AfterCollect(w, i, round);
    var chain := HeadStored(w.relay.chain, w.paras[i]);
    assert Tip(mid.relay.chain) == NextHeader(chain, round.firstBuild);
    assert VersionRoot(mid.relay.chain) == Tip(chain).root;
  }

  lemma EnactmentServes(w: World, i: nat, c: Collation, round: Round)
    requires Wellformed(w) && Serves(w.relay) && i < |w.paras| && Healthy(round, w.relay.node)
    requires c.id in Tip(w.relay.chain).root.parachains
    ensures Serves(AfterEnactment(w, i, c, round).relay)
  {
    var after := AfterEnactment(w, i, c, round);
    assert Tip(after.relay.chain) == EnactedHead(NextHeader(w.relay.chain, round.secondBuild), c);
    assert VersionRoot(after.relay.chain) == Tip(w.relay.chain).root;
  }

  /** The head the collator decodes when the block is collected, the one the relay stores, is the header
      the block was built on, and its state the one the block's proof was recorded on. */
  ghost predicate CollectsOnParent(w: World, collected: World, i: nat)
    requires Wellformed(w) && Wellformed(collected) && i < |w.paras|
  {
    var id, heads := w.paras[i].id, Tip(collected.relay.chain).root.heads;
    && |collected.relay.collations| == 1 && collected.relay.collations[0].id == id && id in heads
    && heads[id] == Tip(w.paras[i].chain)
    && collected.relay.collations[0].block.header.parent == HashOf(heads[id])
    && collected.relay.collations[0].block.proof == heads[id].root
  }

  /** A round cannot fail by itself: when the environment is healthy and the relay hosts every
      parachain, it succeeds, however the parachain's tip was rewritten before. */
  lemma EvolveParaSucceeds(w: World, i: nat, round: Round)
    requires Chained(w) && Quiescent(w) && Aligned(w) && i < |w.paras| && Healthy(round, w.relay.node)
    requires Serves(w.relay)
    ensures EvolvePara(w, i, round).0.Ok?
    ensures Advanced(w, EvolvePara(w, i, round).1, i)
    ensures Serves(EvolvePara(w, i, round).1.relay)
    ensures CollectsOnParent(w, CollectPhase(w, i, round).1, i)
  {
    CollectPhaseSucceeds(w, i, round);
    CollectPhaseWorld(w, i, round);
    CollectedIsCollecting(w, i, round);
    var p := w.paras[i];
    var mid := AfterCollect(w, i, round);
    var block, header := BuiltBlock(p, round.paraBuild), NextHeader(HeadStored(w.relay.chain, p), round.firstBuild);
    AfterCollectServes(w, i, round);
    assert Tip(mid.relay.chain) == header;
    EnactPhaseSucceeds(mid, i, block, header, round);
    EnactPhaseWorld(mid, i, block, header, round);
    EnactmentServes(mid, i, Collation(p.id, block, header), round);
    EvolveParaAdvances(w, i, round);
  }

  // ---- evolve ----

  ghost predicate AllHealthy(rounds: seq<Round>, node: Node) {
    forall k :: 0 <= k < |rounds| ==> Healthy(rounds[k], node)
  }

  ghost predicate EveryImported(rounds: seq<Round>) {
    forall k :: 0 <= k < |rounds| ==> AllImported(rounds[k])
  }

  /** From round `i` on, every parachain has moved one block, the relay chain two for each, and the
      relay stores each parachain's head. */
  ghost predicate Evolved(w: World, after: World, i: nat) {
    && Wellformed(w) && Chained(after) && Quiescent(after) && Aligned(after)
    && |after.paras| == |w.paras| && i <= |w.paras|
    && after.relay.registered == w.relay.registered && after.relay.node == w.relay.node
    && |after.relay.chain| == |w.relay.chain| + 2 * (|w.paras| - i)
    && (forall j :: 0 <= j < i ==> after.paras[j] == w.paras[j])
    && (forall j :: i <= j < |w.paras| ==>
          |after.paras[j].chain| == |w.paras[j].chain| + 1 && w.paras[j].chain <= after.paras[j].chain)
    && (forall j :: i <= j < |w.paras| ==> HeadAtTip(after, j))
    && (forall j :: 0 <= j < i && HeadAtTip(w, j) ==> HeadAtTip(after, j))
  }

  ghost predicate HeadAtTip(w: World, j: nat)
    requires Wellformed(w) && j < |w.paras|
  {
    var heads := Tip(w.relay.chain).root.heads;
    w.paras[j].id in heads && heads[w.paras[j].id] == Tip(w.paras[j].chain)
  }

  lemma AdvancedThenEvolved(w: World, mid: World, after: World, i: nat)
    requires Wellformed(w) && Aligned(w) && i < |w.paras| && Advanced(w, mid, i) && Evolved(mid, after, i + 1)
    ensures Evolved(w, after, i)
  {
    forall j | 0 <= j < i && HeadAtTip(w, j) ensures HeadAtTip(mid, j) {
      assert w.relay.registered[j].id != w.relay.registered[i].id;
    }
  }

  lemma AdvancedGoesOn(w: World, mid: World, i: nat)
    requires Wellformed(w) && i < |w.paras| && Advanced(w, mid, i)
    ensures Chained(mid) && Quiescent(mid) && Aligned(mid) && |mid.paras| == |w.paras|
  {
  }

  lemma NothingEvolved(w: World)
    requires Chained(w) && Quiescent(w) && Aligned(w)
    ensures Evolved(w, w, |w.paras|)
  {
  }

  /** For any number of parachains, by rounds. */
  lemma {:induction false} EvolveFromEvolves(w: World, i: nat, rounds: seq<Round>)
    requires Chained(w) && Quiescent(w) && Aligned(w) && i <= |w.paras| == |rounds| && EveryImported(rounds)
    requires EvolveFrom(w, i, rounds).0.Ok?
    ensures Evolved(w, EvolveFrom(w, i, rounds).1, i)
    decreases |w.paras| - i
  {
    hide EvolvePara, Advanced, Evolved, Quiescent, Aligned, AllImported;
    if i < |w.paras| {
      EvolveParaAdvances(w, i, rounds[i]);
      var mid := EvolvePara(w, i, rounds[i]).1;
      AdvancedGoesOn(w, mid, i);
      EvolveFromEvolves(mid, i + 1, rounds);
      AdvancedThenEvolved(w, mid, EvolveFrom(mid, i + 1, rounds).1, i);
    } else {
      NothingEvolved(w);
    }
  }

  lemma {:induction false} EvolveFromSucceeds(w: World, i: nat, rounds: seq<Round>)
    requires Chained(w) && Quiescent(w) && Aligned(w) && i <= |w.paras| == |rounds| && AllHealthy(rounds, w.relay.node)
    requires Serves(w.relay)
    ensures EvolveFrom(w, i, rounds).0.Ok?
    ensures Serves(EvolveFrom(w, i, rounds).1.relay)
    decreases |w.paras| - i
  {
    if i < |w.paras| {
      EvolveParaSucceeds(w, i, rounds[i]);
      EvolveFromSucceeds(EvolvePara(w, i, rounds[i]).1, i + 1, rounds);
    }
  }
}
