/** The generated companion's `evolve` over one relay-chain builder and any number of parachain builders.
 */
module Companion {
  import opened Ledger
  import opened ParasStorage
  import opened Protocol
  import opened Database
  import opened Builders
  import opened RelayBuilder
  import opened Runs
  import opened Schedule
  import opened Sessions

  /** The builders of one round: the relay chain, one parachain and its cell among all cells. */
  ghost predicate Assembled(relay: RelaychainBuilder, para: ParachainBuilder, i: nat, cells: seq<BlockStorage>)
    reads relay, relay.builder, para, para.builder
  {
    && relay.Valid() && Connected(relay.parachains, cells)
    && para.Valid() && i < |cells| && para.storage == cells[i] && para.builder as object != relay.builder
  }

  /** The system seen from one round: every other parachain is a value. */
  ghost function Seen(relay: RelaychainBuilder, para: ParachainBuilder, i: nat, cells: seq<BlockStorage>,
                      others: seq<Para>): World
    requires i < |others|
    reads relay, relay.builder, para, para.builder, cells
  {
    World(relay.View(), Slots(cells), others[i := para.View()])
  }

  ghost predicate Others(others: seq<Para>, i: nat, cells: seq<BlockStorage>) {
    i < |others| == |cells| && forall j :: 0 <= j < |others| ==> |others[j].chain| > 0
  }

  lemma BuildParaStep(w: World, i: nat, env: ParaEnv)
    requires Wellformed(w) && i < |w.paras|
    ensures var (status, p, slot) := BuildPara(w.paras[i], w.slots[i], env.post, env.digest, env.body, env.fails,
            env.leaf);
            Step(w, DoBuildPara(i, env.post, env.digest, env.body, env.fails, env.leaf))
            == (status, World(w.relay, w.slots[i := slot], w.paras[i := p]))
  {
  }

  lemma ImportParaStep(w: World, i: nat, answer: Answer)
    requires Wellformed(w) && i < |w.paras|
    ensures var (status, p, slot) := ImportPara(w.paras[i], w.slots[i], answer);
            Step(w, DoImportPara(i, answer)) == (status, World(w.relay, w.slots[i := slot], w.paras[i := p]))
  {
  }

  method UpdateHead(relay: RelaychainBuilder, para: ParachainBuilder, i: nat, fault: Fault,
                    ghost cells: seq<BlockStorage>, ghost others: seq<Para>) returns (status: Status)
    requires Assembled(relay, para, i, cells) && Others(others, i, cells)
    modifies relay.builder
    ensures Assembled(relay, para, i, cells)
    ensures var before := old(Seen(relay, para, i, cells, others));
            && Wellformed(before)
            && (status, Seen(relay, para, i, cells, others))
               == Step(before, DoUpdateHead(before.paras[i].id, Tip(before.paras[i].chain), fault))
  {
    hide UpdateParaHead, Indexed, Filed, OnlyCanonical, CodeOutside, Entries;
    var head := para.Head();
    status := relay.UpdateParaHead(para.id, head, fault);
    assert Slots(cells) == old(Slots(cells));
  }

  method BuildOnRelay(relay: RelaychainBuilder, para: ParachainBuilder, i: nat, env: BuildEnv,
                      ghost cells: seq<BlockStorage>, ghost others: seq<Para>) returns (status: Status)
    requires Assembled(relay, para, i, cells) && Others(others, i, cells)
    modifies relay
    ensures Assembled(relay, para, i, cells)
    ensures var before := old(Seen(relay, para, i, cells, others));
            && Wellformed(before)
            && (status, Seen(relay, para, i, cells, others))
                 == Step(before, DoBuildRelay(env.other, env.digest, env.fails))
  {
    hide BuildRelay, Indexed, Filed, OnlyCanonical, CodeOutside, Entries;
    status := relay.BuildBlock(env.other, env.digest, env.body, env.fails);
    assert Slots(cells) == old(Slots(cells));
  }

  method ImportOnRelay(relay: RelaychainBuilder, para: ParachainBuilder, i: nat, env: ImportEnv,
                       ghost cells: seq<BlockStorage>, ghost others: seq<Para>) returns (status: Status)
    requires Assembled(relay, para, i, cells) && Others(others, i, cells)
    modifies relay, relay.builder, cells
    ensures Assembled(relay, para, i, cells)
    ensures var before := old(Seen(relay, para, i, cells, others));
            && Wellformed(before)
            && (status, Seen(relay, para, i, cells, others)) == Step(before, DoImportRelay(env))
  {
    hide ImportRelay;
    status := relay.ImportBlock(env, cells);
  }

  method BuildOnPara(relay: RelaychainBuilder, para: ParachainBuilder, i: nat, env: ParaEnv,
                     ghost cells: seq<BlockStorage>, ghost others: seq<Para>) returns (status: Status)
    requires Assembled(relay, para, i, cells) && Others(others, i, cells)
    modifies para, para.builder, para.storage
    ensures Assembled(relay, para, i, cells)
    ensures var before := old(Seen(relay, para, i, cells, others));
            && Wellformed(before)
            && (status, Seen(relay, para, i, cells, others))
                 == Step(before, DoBuildPara(i, env.post, env.digest, env.body, env.fails, env.leaf))
  {
    hide Step, BuildPara, Indexed, Filed, OnlyCanonical, CodeOutside, Entries;
    ghost var before := Seen(relay, para, i, cells, others);
    ghost var slots := Slots(cells);
    ghost var hub := relay.View();
    BuildParaStep(before, i, env);
    status := para.BuildBlock(env.post, env.digest, env.body, env.fails, env.leaf);
    assert relay.View() == hub;
    SlotChanged(slots, Slots(cells), i);
    UpdateTwice(others, i, old(para.View()), para.View());
  }

  method ImportOnPara(relay: RelaychainBuilder, para: ParachainBuilder, i: nat, answer: Answer,
                      ghost cells: seq<BlockStorage>, ghost others: seq<Para>) returns (status: Status)
    requires Assembled(relay, para, i, cells) && Others(others, i, cells)
    modifies para, para.builder, para.storage
    ensures Assembled(relay, para, i, cells)
    ensures var before := old(Seen(relay, para, i, cells, others));
            && Wellformed(before)
            && (status, Seen(relay, para, i, cells, others)) == Step(before, DoImportPara(i, answer))
  {
    hide Step, ImportPara, Indexed, Filed, OnlyCanonical, CodeOutside, Entries;
    ghost var before := Seen(relay, para, i, cells, others);
    ghost var slots := Slots(cells);
    ghost var hub := relay.View();
    ImportParaStep(before, i, answer);
    status := para.ImportBlock(answer);
    assert relay.View() == hub;
    SlotChanged(slots, Slots(cells), i);
    UpdateTwice(others, i, old(para.View()), para.View());
  }

  /** One parachain's share of `evolve`, up to the collected block. */
  method CollectBlock(relay: RelaychainBuilder, para: ParachainBuilder, i: nat, round: Round,
                      ghost cells: seq<BlockStorage>, ghost others: seq<Para>) returns (status: Status)
    requires Assembled(relay, para, i, cells) && Others(others, i, cells)
    modifies relay, relay.builder, para, para.builder, cells
    ensures Assembled(relay, para, i, cells)
    ensures var before := old(Seen(relay, para, i, cells, others));
            && Wellformed(before)
            && (status, Seen(relay, para, i, cells, others)) == CollectPhase(before, i, round)
  {
    status := UpdateHead(relay, para, i, round.headFault, cells, others);
    if status.Ok? {
      status := BuildOnRelay(relay, para, i, round.firstBuild, cells, others);
    }
    if status.Ok? {
      status := BuildOnPara(relay, para, i, round.paraBuild, cells, others);
    }
    if status.Ok? {
      status := ImportOnRelay(relay, para, i, round.firstImport, cells, others);
    }
  }

  method EnactBlock(relay: RelaychainBuilder, para: ParachainBuilder, i: nat, round: Round,
                    ghost cells: seq<BlockStorage>, ghost others: seq<Para>) returns (status: Status)
    requires Assembled(relay, para, i, cells) && Others(others, i, cells)
    modifies relay, relay.builder, para, para.builder, cells
    ensures Assembled(relay, para, i, cells)
    ensures var before := old(Seen(relay, para, i, cells, others));
            && Wellformed(before)
            && (status, Seen(relay, para, i, cells, others)) == EnactPhase(before, i, round)
  {
    status := BuildOnRelay(relay, para, i, round.secondBuild, cells, others);
    if status.Ok? {
      status := ImportOnRelay(relay, para, i, round.secondImport, cells, others);
    }
    if status.Ok? {
      status := ImportOnPara(relay, para, i, round.paraImport, cells, others);
    }
  }

  ghost function Touched(relay: RelaychainBuilder, para: ParachainBuilder, cells: seq<BlockStorage>): set<object> {
    {relay, relay.builder, para, para.builder} + set c | c in cells
  }

  method EvolveOne(relay: RelaychainBuilder, para: ParachainBuilder, i: nat, round: Round,
                   ghost cells: seq<BlockStorage>, ghost others: seq<Para>) returns (status: Status)
    requires Assembled(relay, para, i, cells) && Others(others, i, cells)
    modifies Touched(relay, para, cells)
    ensures Assembled(relay, para, i, cells)
    ensures var before := old(Seen(relay, para, i, cells, others));
            && Wellformed(before)
            && (status, Seen(relay, para, i, cells, others)) == EvolvePara(before, i, round)
  {
    status := CollectBlock(relay, para, i, round, cells, others);
    if status.Ok? {
      status := EnactBlock(relay, para, i, round, cells, others);
    }
  }

  // ---- All parachains ----

  ghost predicate OwnParts(relay: RelaychainBuilder, para: ParachainBuilder, i: nat, cells: seq<BlockStorage>)
    reads para, para.builder
  {
    i < |cells| && para.Valid() && para.storage == cells[i] && para.builder as object != relay.builder
  }

  ghost predicate AllDistinct(paras: seq<ParachainBuilder>) {
    forall i, j :: 0 <= i < j < |paras| ==> paras[i] != paras[j] && paras[i].builder != paras[j].builder
  }

  ghost predicate AllReady(relay: RelaychainBuilder, paras: seq<ParachainBuilder>, cells: seq<BlockStorage>)
    reads relay, relay.builder, paras, set p | p in paras :: p.builder
  {
    && relay.Valid() && Connected(relay.parachains, cells) && |cells| == |paras|
    && (forall i :: 0 <= i < |paras| ==> OwnParts(relay, paras[i], i, cells))
    && AllDistinct(paras)
  }

  ghost function ParaViews(paras: seq<ParachainBuilder>): (views: seq<Para>)
    reads paras, set p | p in paras :: p.builder
    ensures |views| == |paras|
    ensures forall i :: 0 <= i < |paras| ==> views[i] == paras[i].View()
  {
    if paras == [] then [] else [paras[0].View()] + ParaViews(paras[1..])
  }

  ghost function WorldOf(relay: RelaychainBuilder, paras: seq<ParachainBuilder>, cells: seq<BlockStorage>): World
    reads relay, relay.builder, paras, set p | p in paras :: p.builder, cells
  {
    World(relay.View(), Slots(cells), ParaViews(paras))
  }

  lemma WorldWellformed(relay: RelaychainBuilder, paras: seq<ParachainBuilder>, cells: seq<BlockStorage>)
    requires AllReady(relay, paras, cells)
    ensures Wellformed(WorldOf(relay, paras, cells)) && |WorldOf(relay, paras, cells).paras| == |paras|
    ensures forall i :: 0 <= i < |paras| ==> |ParaViews(paras)[i].chain| > 0
  {
    forall i | 0 <= i < |paras| ensures |ParaViews(paras)[i].chain| > 0 {
      assert OwnParts(relay, paras[i], i, cells);
    }
  }

  /** A parachain builder in good order whose value is `view`. */
  ghost predicate Stands(relay: RelaychainBuilder, para: ParachainBuilder, j: nat, cells: seq<BlockStorage>, view: Para)
    reads para, para.builder
  {
    OwnParts(relay, para, j, cells) && para.View() == view
  }

  lemma SeenIsWorld(relay: RelaychainBuilder, paras: seq<ParachainBuilder>, i: nat, cells: seq<BlockStorage>,
                    others: seq<Para>)
    requires i < |paras| == |cells| == |others| && AllDistinct(paras) && Assembled(relay, paras[i], i, cells)
    requires forall j :: 0 <= j < |paras| && j != i ==> Stands(relay, paras[j], j, cells, others[j])
    ensures AllReady(relay, paras, cells)
    ensures Seen(relay, paras[i], i, cells, others) == WorldOf(relay, paras, cells)
  {
    assert others[i := paras[i].View()] == ParaViews(paras);
  }

  lemma Apart(relay: RelaychainBuilder, para: ParachainBuilder, cells: seq<BlockStorage>, other: ParachainBuilder)
    requires other != para && other.builder != para.builder && other.builder as object != relay.builder
    ensures other !in Touched(relay, para, cells) && other.builder !in Touched(relay, para, cells)
  {
  }

  /** Parachain builder `j` stands outside what the i-th round may touch. */
  ghost predicate Outside(relay: RelaychainBuilder, paras: seq<ParachainBuilder>, i: nat, j: nat,
                          cells: seq<BlockStorage>, view: Para)
    requires i < |paras| && j < |paras|
    reads paras[j], paras[j].builder
  {
    var touched := Touched(relay, paras[i], cells);
    paras[j] !in touched && paras[j].builder !in touched && Stands(relay, paras[j], j, cells, view)
  }

  lemma OthersOutside(relay: RelaychainBuilder, paras: seq<ParachainBuilder>, i: nat, cells: seq<BlockStorage>)
    requires i < |paras| && AllReady(relay, paras, cells)
    ensures |paras| == |cells| && AllDistinct(paras)
    ensures Assembled(relay, paras[i], i, cells) && Others(ParaViews(paras), i, cells)
    ensures Wellformed(WorldOf(relay, paras, cells))
    ensures Seen(relay, paras[i], i, cells, ParaViews(paras)) == WorldOf(relay, paras, cells)
    ensures forall j :: 0 <= j < |paras| && j != i ==> Outside(relay, paras, i, j, cells, ParaViews(paras)[j])
  {
    WorldWellformed(relay, paras, cells);
    assert OwnParts(relay, paras[i], i, cells);
    forall j | 0 <= j < |paras| && j != i ensures Outside(relay, paras, i, j, cells, ParaViews(paras)[j]) {
      assert OwnParts(relay, paras[j], j, cells);
      Apart(relay, paras[i], cells, paras[j]);
    }
    SeenIsWorld(relay, paras, i, cells, ParaViews(paras));
  }

  /** The i-th round; the other parachain builders are untouched. */
  method EvolveNth(relay: RelaychainBuilder, paras: seq<ParachainBuilder>, i: nat, round: Round,
                   ghost cells: seq<BlockStorage>) returns (status: Status)
    requires i < |paras| && AllReady(relay, paras, cells)
    modifies Touched(relay, paras[i], cells)
    ensures AllReady(relay, paras, cells)
    ensures var before := old(WorldOf(relay, paras, cells));
            Wellformed(before) && (status, WorldOf(relay, paras, cells)) == EvolvePara(before, i, round)
  {
    hide EvolvePara, Seen, WorldOf, ParaViews, Assembled, AllReady, AllDistinct, Others, Wellformed, Touched, Stands;
    OthersOutside(relay, paras, i, cells);
    ghost var others := ParaViews(paras);
    status := EvolveOne(relay, paras[i], i, round, cells, others);
    SeenIsWorld(relay, paras, i, cells, others);
  }

  ghost function Everything(relay: RelaychainBuilder, paras: seq<ParachainBuilder>,
                            cells: seq<BlockStorage>): set<object> {
    {relay, relay.builder} + (set c | c in cells) + (set p | p in paras) + set p | p in paras :: p.builder
  }

  lemma TouchedIsPart(relay: RelaychainBuilder, paras: seq<ParachainBuilder>, i: nat, cells: seq<BlockStorage>)
    requires i < |paras|
    ensures Touched(relay, paras[i], cells) <= Everything(relay, paras, cells)
  {
    assert paras[i].builder in set p | p in paras :: p.builder;
  }

  /** One full `evolve`: every parachain in turn, stopping at the first error. */
  method Evolve(relay: RelaychainBuilder, paras: seq<ParachainBuilder>, rounds: seq<Round>,
                ghost cells: seq<BlockStorage>) returns (status: Status)
    requires |rounds| == |paras| && AllReady(relay, paras, cells)
    modifies Everything(relay, paras, cells)
    ensures AllReady(relay, paras, cells)
    ensures var before := old(WorldOf(relay, paras, cells));
            && Wellformed(before) && |before.paras| == |paras|
            && (status, WorldOf(relay, paras, cells)) == EvolveFrom(before, 0, rounds)
    ensures var before := old(WorldOf(relay, paras, cells));
            status.Ok? && Chained(before) && Quiescent(before) && Aligned(before) && EveryImported(rounds) ==>
              Evolved(before, WorldOf(relay, paras, cells), 0)
  {
    hide EvolvePara, Chained, Quiescent, Aligned, EveryImported, Evolved, AllReady, WorldOf, Wellformed, Touched,
        Everything;
    WorldWellformed(relay, paras, cells);
    ghost var start := WorldOf(relay, paras, cells);
    var i := 0;
    while i < |paras|
      invariant i <= |paras| && AllReady(relay, paras, cells)
      invariant Wellformed(WorldOf(relay, paras, cells)) && |WorldOf(relay, paras, cells).paras| == |paras|
      invariant EvolveFrom(start, 0, rounds) == EvolveFrom(WorldOf(relay, paras, cells), i, rounds)
    {
      TouchedIsPart(relay, paras, i, cells);
      status := EvolveNth(relay, paras, i, rounds[i], cells);
      if !status.Ok? {
        return;
      }
      i := i + 1;
    }
    if Chained(start) && Quiescent(start) && Aligned(start) && EveryImported(rounds) {
      EvolveFromEvolves(start, 0, rounds);
    }
    status := Status.Ok;
  }

  // ---- Setting up ----

  /** Each parachain builder hands out a collator on its own cell. */
  ghost predicate OwnCollators(collators: seq<FudgeCollator>, cells: seq<BlockStorage>) {
    |collators| == |cells| && forall i :: 0 <= i < |cells| ==> collators[i].storage == cells[i]
  }

  ghost function OnboardAction(w: World, i: nat, field: Field, hash: Code -> CodeHash): Action
    requires Wellformed(w) && i < |w.paras|
  {
    DoOnboard(Entry(field.id, i), Tip(w.paras[i].chain), field.code, hash, field.fault)
  }

  lemma OnboardStep(w: World, i: nat, field: Field, hash: Code -> CodeHash)
    requires Wellformed(w) && i < |w.paras|
    ensures var (status, r) := Protocol.OnboardPara(w.relay, Entry(field.id, i), Tip(w.paras[i].chain), field.code,
            hash, field.fault);
            Step(w, OnboardAction(w, i, field, hash)) == (status, World(r, w.slots, w.paras))
  {
  }

  ghost predicate StandsApart(relay: RelaychainBuilder, para: ParachainBuilder, j: nat, cells: seq<BlockStorage>,
                              view: Para)
    reads para, para.builder
  {
    para as object != relay && para.builder as object != relay.builder && Stands(relay, para, j, cells, view)
  }

  lemma AllStand(relay: RelaychainBuilder, paras: seq<ParachainBuilder>, cells: seq<BlockStorage>)
    requires AllReady(relay, paras, cells)
    ensures relay.Valid() && Connected(relay.parachains, cells) && |cells| == |paras| && AllDistinct(paras)
    ensures Wellformed(WorldOf(relay, paras, cells))
    ensures forall j :: 0 <= j < |paras| ==> StandsApart(relay, paras[j], j, cells, ParaViews(paras)[j])
    ensures forall j :: 0 <= j < |cells| ==> cells[j] as object != relay && cells[j] as object != relay.builder
  {
    WorldWellformed(relay, paras, cells);
    forall j | 0 <= j < |paras| ensures StandsApart(relay, paras[j], j, cells, ParaViews(paras)[j]) {
      assert OwnParts(relay, paras[j], j, cells);
    }
  }

  lemma OnlyRelayChanged(relay: RelaychainBuilder, paras: seq<ParachainBuilder>, cells: seq<BlockStorage>,
                         views: seq<Para>)
    requires relay.Valid() && Connected(relay.parachains, cells) && |cells| == |paras| == |views| && AllDistinct(paras)
    requires forall j :: 0 <= j < |paras| ==> StandsApart(relay, paras[j], j, cells, views[j])
    ensures AllReady(relay, paras, cells) && ParaViews(paras) == views
  {
  }

  lemma ConnectedExtends(parachains: seq<Registration>, id: Id, collator: FudgeCollator, i: nat,
                         cells: seq<BlockStorage>)
    requires Connected(parachains, cells) && i < |cells| && collator.storage == cells[i]
    ensures collator.storage.index == i && Connected(parachains + [Registration(id, collator)], cells)
  {
  }

  /** Onboard the i-th parachain under its attribute's id, with its present head. */
  method OnboardNth(relay: RelaychainBuilder, paras: seq<ParachainBuilder>, i: nat, field: Field,
                    hash: Code -> CodeHash,
                    collator: FudgeCollator, ghost cells: seq<BlockStorage>) returns (status: Status)
    requires i < |paras| && AllReady(relay, paras, cells) && i < |cells| && collator.storage == cells[i]
    modifies relay, relay.builder
    ensures AllReady(relay, paras, cells)
    ensures var before := old(WorldOf(relay, paras, cells));
            Wellformed(before) && (status, WorldOf(relay, paras, cells))
                == Step(before, OnboardAction(before, i, field, hash))
  {
    hide Protocol.OnboardPara, Step, OnboardAction, AllReady, ParaViews, AllDistinct, Connected, Wellformed, Indexed,
        Filed, OnlyCanonical, CodeOutside, Entries;
    AllStand(relay, paras, cells);
    ghost var before, views := WorldOf(relay, paras, cells), ParaViews(paras);
    ConnectedExtends(relay.parachains, field.id, collator, i, cells);
    OnboardStep(before, i, field, hash);
    var head := paras[i].Head();
    status := relay.OnboardPara(field.id, head, field.code, hash, collator, field.fault);
    assert Slots(cells) == before.slots;
    OnlyRelayChanged(relay, paras, cells, views);
  }

  method OnboardEach(relay: RelaychainBuilder, paras: seq<ParachainBuilder>, fields: seq<Field>, hash: Code -> CodeHash,
                     collators: seq<FudgeCollator>, ghost cells: seq<BlockStorage>) returns (status: Status)
    requires |fields| == |paras| && AllReady(relay, paras, cells) && OwnCollators(collators, cells)
    modifies relay, relay.builder
    ensures AllReady(relay, paras, cells)
    ensures var before := old(WorldOf(relay, paras, cells));
            && Wellformed(before) && |before.paras| == |paras|
            && (status, WorldOf(relay, paras, cells)) == OnboardFrom(before, 0, fields, hash)
  {
    hide Step;
    WorldWellformed(relay, paras, cells);
    ghost var start := WorldOf(relay, paras, cells);
    var i := 0;
    while i < |paras|
      invariant i <= |paras| && AllReady(relay, paras, cells)
      invariant Wellformed(WorldOf(relay, paras, cells))
      invariant OnboardFrom(start, 0, fields, hash) == OnboardFrom(WorldOf(relay, paras, cells), i, fields, hash)
    {
      status := OnboardNth(relay, paras, i, fields[i], hash, collators[i], cells);
      if !status.Ok? {
        return;
      }
      i := i + 1;
    }
    status := Status.Ok;
  }

  /** The relay chain's own part of a call: the parachain builders are untouched. */
  method BuildRelayBlock(relay: RelaychainBuilder, paras: seq<ParachainBuilder>, env: BuildEnv,
                         ghost cells: seq<BlockStorage>) returns (status: Status)
    requires AllReady(relay, paras, cells)
    modifies relay, relay.builder
    ensures AllReady(relay, paras, cells)
    ensures var before := old(WorldOf(relay, paras, cells));
            Wellformed(before) && (status, WorldOf(relay, paras, cells))
                == Step(before, DoBuildRelay(env.other, env.digest, env.fails))
  {
    hide BuildRelay, AllReady, ParaViews, AllDistinct, Connected, Wellformed, Indexed, Filed, OnlyCanonical,
        CodeOutside,
        Linked, Entries;
    AllStand(relay, paras, cells);
    ghost var before, views := WorldOf(relay, paras, cells), ParaViews(paras);
    status := relay.BuildBlock(env.other, env.digest, env.body, env.fails);
    assert Slots(cells) == before.slots;
    OnlyRelayChanged(relay, paras, cells, views);
  }

  method ImportRelayBlock(relay: RelaychainBuilder, paras: seq<ParachainBuilder>, env: ImportEnv,
                          ghost cells: seq<BlockStorage>) returns (status: Status)
    requires AllReady(relay, paras, cells)
    modifies relay, relay.builder, cells
    ensures AllReady(relay, paras, cells)
    ensures var before := old(WorldOf(relay, paras, cells));
            Wellformed(before) && (status, WorldOf(relay, paras, cells)) == Step(before, DoImportRelay(env))
  {
    hide ImportRelay, AllReady, ParaViews, AllDistinct, Connected, Wellformed;
    AllStand(relay, paras, cells);
    ghost var views := ParaViews(paras);
    status := relay.ImportBlock(env, cells);
    OnlyRelayChanged(relay, paras, cells, views);
  }

  /** `new`: onboard every parachain in turn, then build and import one relay block. */
  method New(relay: RelaychainBuilder, paras: seq<ParachainBuilder>, fields: seq<Field>, hash: Code -> CodeHash,
             collators: seq<FudgeCollator>, build: BuildEnv, env: ImportEnv, ghost cells: seq<BlockStorage>)
    returns (status: Status)
    requires |fields| == |paras| && AllReady(relay, paras, cells) && OwnCollators(collators, cells)
    modifies relay, relay.builder, cells
    ensures AllReady(relay, paras, cells)
    ensures var before := old(WorldOf(relay, paras, cells));
            && Wellformed(before) && |before.paras| == |paras|
            && (status, WorldOf(relay, paras, cells)) == Sessions.New(before, fields, hash, build, env)
    ensures var before := old(WorldOf(relay, paras, cells));
            status.Ok? && Unused(before, fields) && env.answer.Imported? ==>
              Established(before, WorldOf(relay, paras, cells), fields, hash)
  {
    hide Step, OnboardFrom, AllReady, Unused, Established;
    ghost var before := WorldOf(relay, paras, cells);
    status := OnboardEach(relay, paras, fields, hash, collators, cells);
    if status.Ok? {
      status := BuildRelayBlock(relay, paras, build, cells);
    }
    if status.Ok? {
      status := ImportRelayBlock(relay, paras, env, cells);
    }
    if status.Ok? && Unused(before, fields) && env.answer.Imported? {
      NewEstablishes(before, fields, hash, build, env);
    }
  }
}
